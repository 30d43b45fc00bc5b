// What each turn of the store does, in terms of the state it meets: what is shown after an answer or a refusal,
// when a failed read is made again, what a request starts, and what a lease that ends gives back.
module StoreTurns {
  import opened Snapshots
  import opened RetryBudgets
  import opened WorkspaceStores
  import opened StoreRuns
  import opened Wrappers

  // ---- What is shown ----

  // Nothing has superseded what the flight reads.
  predicate Stands(s: Store, id: nat) {
    id in s.flights && s.flights[id].generation == s.generation
  }

  // The read of an iteration that stands is answered.
  predicate AnswerArrives(s: Store, e: Event) {
    e.SnapshotReply? && e.reply.Answer? && Stands(s, e.flight) && s.flights[e.flight].phase.Reading?
  }

  // A recovery that stands ends: its independent slices arrive, or its inventory cannot be read.
  predicate RefusalArrives(s: Store, e: Event) {
    OfFlight(e) && Stands(s, e.flight) &&
    var f := s.flights[e.flight];
    || (e.IndependentReply? && f.phase.Independent?)
    || (e.ConfigurationReply? && e.reply.Failed? && f.phase.Configuring? && !f.aborted && !s.disposed)
  }

  predicate FillsFromCache(s: Store, e: Event) {
    e.Prime? && e.cached.Some? && s.shown.snapshot.None?
  }

  // The error that is shown is cleared by an answer, a move, and a snapshot out of the cache, set by a refusal,
  // and otherwise left as it is.
  lemma StepError(s: Store, e: Event, now: int)
    ensures Step(s, e, now).shown.error ==
            if RefusalArrives(s, e) then Some(s.flights[e.flight].phase.failure)
            else if AnswerArrives(s, e) || e.Move? || FillsFromCache(s, e) then None
            else s.shown.error
  {
    hide LeaseEffect, RequestEffect, FlightEffect;
    if OfFlight(e) { FlightError(s, e, now); }
    else if OfLease(e) { LeaseKeepsError(s, e); }
    else { RequestError(s, e, now); }
  }

  lemma FlightError(s: Store, e: Event, now: int)
    requires OfFlight(e)
    ensures FlightEffect(s, e, now).shown.error ==
            if RefusalArrives(s, e) then Some(s.flights[e.flight].phase.failure)
            else if AnswerArrives(s, e) then None else s.shown.error
  {
    hide Turned, ChangedSlices, Recovery, Accept;
  }

  lemma LeaseKeepsError(s: Store, e: Event)
    requires OfLease(e)
    ensures LeaseEffect(s, e).shown == s.shown.(snapshot := LeaseEffect(s, e).shown.snapshot,
                                                droppedAt := LeaseEffect(s, e).shown.droppedAt)
  {
    hide Freed, PayloadsOf, WithoutPayloads, Dropped, Remove, AllDisposed, Aborting;
    if e.DisposeStore? {
      DisposalKeepsError(s.(disposed := true, flights := Aborting(s.flights, s.inFlight)), s.disposers);
    }
  }

  lemma {:induction false} DisposalKeepsError(s: Store, order: seq<nat>)
    ensures AllDisposed(s, order).shown == s.shown.(snapshot := AllDisposed(s, order).shown.snapshot,
                                                    droppedAt := AllDisposed(s, order).shown.droppedAt)
  {
    hide Freed, PayloadsOf, WithoutPayloads, Dropped, Remove;
    if order != [] { DisposalKeepsError(s, order[..|order| - 1]); }
  }

  lemma RequestError(s: Store, e: Event, now: int)
    requires !OfFlight(e) && !OfLease(e)
    ensures RequestEffect(s, e, now).shown.error ==
            if e.Move? || FillsFromCache(s, e) then None else s.shown.error
  {
    hide WithoutEphemeral, Launched, Taken, Aborting;
  }

  // The engine gives up a read that stands because of a newer one, and the flight has not been cut short.
  predicate SupersessionArrives(s: Store, e: Event) {
    OfFlight(e) && Stands(s, e.flight) &&
    var f := s.flights[e.flight];
    !f.aborted && !s.disposed
    && ((e.SnapshotReply? && e.reply.Superseded? && f.phase.Reading?)
        || (e.ConfigurationReply? && e.reply.Superseded? && f.phase.Configuring?))
  }

  // The loop tells its listeners of an answer, of a refusal, and that the spinner stops, and of nothing else.
  lemma PublishesWhen(s: Store, e: Event, now: int)
    ensures Publishes(s, e, now) <==> AnswerArrives(s, e) || RefusalArrives(s, e) || SupersessionArrives(s, e)
    ensures SupersessionArrives(s, e) ==>
              var g := Step(s, e, now);
              && g.shown == s.shown.(loading := false)
              && g.flights == s.flights[e.flight := s.flights[e.flight].(phase := Settling)]
  {
    hide ChangedSlices, Recovery, Accept;
  }

  // What an answer shows: itself, or the receipt over what was shown; no error, no spinner, no stale mark.
  lemma AnswersAreShown(s: Store, e: Event, now: int)
    requires AnswerArrives(s, e)
    ensures var g := Step(s, e, now);
      && g.shown.error == None && !g.shown.loading && !g.shown.stale
      && g.shown.snapshot == (if e.reply.snapshot.notModified && s.shown.snapshot.Some?
                              then Some(Accept(s.shown.snapshot.value, e.reply.snapshot)) else Some(e.reply.snapshot))
      && g.flights == s.flights[e.flight := s.flights[e.flight].(phase := Settling)]
      && (g.force <==> s.force && e.reply.snapshot.notModified && s.shown.snapshot.Some?)
  {
    hide ChangedSlices, Accept;
  }

  // Event `k` shows the error of a refused read.
  ghost predicate ShowsRefusal(events: seq<Timed>, k: nat, error: nat)
    requires k < |events|
  {
    var s, e := Run(events[..k]), events[k].event;
    RefusalArrives(s, e) && s.flights[e.flight].phase.failure == error
  }

  // Event `k` clears the error that was shown, or shows another.
  ghost predicate EndsError(events: seq<Timed>, k: nat)
    requires k < |events|
  {
    var s, e := Run(events[..k]), events[k].event;
    RefusalArrives(s, e) || AnswerArrives(s, e) || e.Move? || FillsFromCache(s, e)
  }

  // The error was shown, and nothing has ended it since.
  ghost predicate StandsSince(events: seq<Timed>, error: nat) {
    exists k :: 0 <= k < |events| && ShowsRefusal(events, k, error)
                && forall m | k < m < |events| :: !EndsError(events, m)
  }

  // Over every run an error is shown if and only if it is that of the latest refusal, and no answer, move or
  // cached snapshot has come since.
  lemma {:induction false} ErrorsStandUntilTheNextSuccess(events: seq<Timed>, error: nat)
    ensures Run(events).shown.error == Some(error) <==> StandsSince(events, error)
  {
    hide Run, Step, AnswerArrives, FillsFromCache, RefusalArrives;
    if events == [] {
      NothingIsShown();
    } else {
      var front, last := events[..|events| - 1], events[|events| - 1];
      ErrorsStandUntilTheNextSuccess(front, error);
      RunUnfolds(events);
      StepError(Run(front), last.event, last.now);
      assert events[..|front|] == front && events[|front|] == last;
      ErrorGoesOn(events, error);
    }
  }

  lemma NothingIsShown()
    ensures Run([]).shown.error == None
  {}

  lemma ErrorGoesOn(events: seq<Timed>, error: nat)
    requires events != []
    ensures var last := |events| - 1;
      StandsSince(events, error) <==>
        ShowsRefusal(events, last, error) || (StandsSince(events[..last], error) && !EndsError(events, last))
  {
    hide Run, ShowsRefusal, EndsError;
    var last := |events| - 1;
    var front := events[..last];
    forall m | 0 <= m < last
      ensures (EndsError(events, m) <==> EndsError(front, m))
      ensures (ShowsRefusal(events, m, error) <==> ShowsRefusal(front, m, error))
    {
      SameBefore(events, m, error);
    }
    if StandsSince(front, error) && !EndsError(events, last) {
      var k :| 0 <= k < last && ShowsRefusal(front, k, error) && forall m | k < m < last :: !EndsError(front, m);
      assert ShowsRefusal(events, k, error);
    }
    if StandsSince(events, error) {
      var k :| 0 <= k < |events| && ShowsRefusal(events, k, error)
               && forall m | k < m < |events| :: !EndsError(events, m);
      if k < last { assert ShowsRefusal(front, k, error); }
    }
  }

  lemma SameBefore(events: seq<Timed>, m: nat, error: nat)
    requires m + 1 < |events|
    ensures EndsError(events, m) <==> EndsError(events[..|events| - 1], m)
    ensures ShowsRefusal(events, m, error) <==> ShowsRefusal(events[..|events| - 1], m, error)
  {
    hide Run, AnswerArrives, FillsFromCache, RefusalArrives;
    assert events[..|events| - 1][..m] == events[..m];
  }

  // ---- A failed read ----

  // The iteration's clock was read when it began.
  ghost predicate Anchored(f: Flight, clocks: seq<Timed>) {
    f.begunAt < |clocks| && f.retry.startedAt == clocks[f.begunAt].now
  }

  lemma TurnAnchors(s: Store, f: Flight, e: Event, now: int)
    ensures var g := Turned(s, f, TurnOf(s, f, e, now), now);
      || (g.begunAt == f.begunAt && g.retry.startedAt == f.retry.startedAt)
      || (g.begunAt == s.step && g.retry.startedAt == now)
  {
    hide ChangedSlices, Recovery, Accept;
  }

  lemma RequestAnchors(s: Store, e: Event, now: int, id: nat)
    requires !OfFlight(e) && id in RequestEffect(s, e, now).flights
    ensures var g := RequestEffect(s, e, now).flights[id];
      || (id in s.flights && g.begunAt == s.flights[id].begunAt && g.retry.startedAt == s.flights[id].retry.startedAt)
      || (g.begunAt == s.step && g.retry.startedAt == now)
  {
    hide WithoutEphemeral, Taken;
  }

  lemma StepAnchors(s: Store, e: Event, now: int, id: nat)
    requires id in Step(s, e, now).flights
    ensures var g := Step(s, e, now).flights[id];
      || (id in s.flights && g.begunAt == s.flights[id].begunAt && g.retry.startedAt == s.flights[id].retry.startedAt)
      || (g.begunAt == s.step && g.retry.startedAt == now)
  {
    hide FlightEffect, LeaseEffect, RequestEffect, TurnOf, Turned, Replied, Settled;
    if OfFlight(e) {
      FlightEffects(s, e, now);
      if e.flight in s.flights {
        RepliedIs(s, e.flight, e, now);
        SettledIs(s, e.flight);
        TurnAnchors(s, s.flights[e.flight], e, now);
      }
    } else if OfLease(e) {
      LeaseOnlyReleases(s, e);
    } else {
      RequestAnchors(s, e, now, id);
    }
  }

  lemma {:induction false} IterationsAreAnchored(events: seq<Timed>, id: nat)
    requires id in Run(events).flights
    ensures Anchored(Run(events).flights[id], events)
  {
    hide Run, Step;
    NoFlightsAtFirst(events, id);
    var front, last := events[..|events| - 1], events[|events| - 1];
    RunUnfolds(events);
    StoreInvariant(front);
    StepAnchors(Run(front), last.event, last.now, id);
    if id in Run(front).flights {
      IterationsAreAnchored(front, id);
    }
  }

  // When the wait before the next attempt is over: 400 ms, 1.4 s and 3.9 s after the iteration began, but not
  // before now.
  function DueAt(startedAt: int, attempt: nat, now: int): int {
    var due := startedAt + (if attempt == 0 then 400 else if attempt == 1 then 1_400 else 3_900);
    if due < now then now else due
  }

  // Over every run on a clock that never steps back: a read that fails for a passing reason is made again, up to
  // three times, at the times its iteration planned; any other failure asks for the inventory. Neither is shown
  // yet. A superseded iteration that may not retry starts anew, and one that was cut short ends.
  lemma FailuresAreRetried(events: seq<Timed>, id: nat, error: nat, transient: bool, now: int)
    requires Monotone(events) && id in Run(events).flights && Run(events).flights[id].phase.Reading?
    ensures var s, g := Run(events), Step(Run(events), SnapshotReply(id, Failed(error, transient)), now);
            var f := s.flights[id];
      && g == s.(flights := g.flights, step := s.step + 1) && f.begunAt < |events|
      && g.flights.Keys == s.flights.Keys && (forall i | i in s.flights && i != id :: g.flights[i] == s.flights[i])
      && var after := g.flights[id];
         if f.aborted || s.disposed then after == f.(phase := Settling)
         else if transient && f.retry.attempt < 3 then
           && after == f.(phase := Waiting, retry := after.retry) && after.retry.attempt == f.retry.attempt
           && after.retry.wakeAt == DueAt(events[f.begunAt].now, f.retry.attempt, now)
         else if f.generation != s.generation then
           && after.phase.Reading? && after.generation == s.generation && after.begunAt == s.step
           && after.readAt == s.step && after.retry.attempt == 0 && after.slices == s.loaded
         else after == f.(phase := Configuring(error, s.step))
  {
    hide Run, Step, DueAt, Backoff;
    IterationsAreAnchored(events, id);
    RunOnBudget(events);
    var f := Run(events).flights[id];
    assert OnBudget(f, if events == [] then 0 else events[|events| - 1].now);
    FailedTurn(Run(events), id, error, transient, now);
    if f.retry.attempt < 3 { RetryIsDue(f.retry, now); }
  }

  lemma RetryIsDue(r: Retry, now: int)
    requires WithinBudget(r, false) && r.attempt < 3
    ensures Backoff(r, now).wakeAt == DueAt(r.startedAt, r.attempt, now) && Backoff(r, now).attempt == r.attempt
  {}

  lemma FailedTurn(s: Store, id: nat, error: nat, transient: bool, now: int)
    requires id in s.flights && s.flights[id].phase.Reading?
    ensures var f, g := s.flights[id], Step(s, SnapshotReply(id, Failed(error, transient)), now);
      && g == s.(flights := g.flights, step := s.step + 1)
      && g.flights.Keys == s.flights.Keys && (forall i | i in s.flights && i != id :: g.flights[i] == s.flights[i])
      && var after := g.flights[id];
         if f.aborted || s.disposed then after == f.(phase := Settling)
         else if transient && f.retry.attempt < 3 then after == f.(phase := Waiting, retry := Backoff(f.retry, now))
         else if f.generation != s.generation then
           && after.phase.Reading? && after.generation == s.generation && after.begunAt == s.step
           && after.readAt == s.step && after.retry.attempt == 0 && after.slices == s.loaded
         else after == f.(phase := Configuring(error, s.step))
  {
    hide Backoff;
  }

  // The wait ends when it is due, or when the flight is aborted, and not before; then the read is made again,
  // for what is loaded then.
  lemma WaitsEndInAnAttempt(s: Store, id: nat, now: int)
    requires id in s.flights && s.flights[id].phase.Waiting?
    ensures var f, g := s.flights[id], Step(s, Wake(id), now);
      g == s.(step := s.step + 1, flights :=
        if f.aborted || f.retry.wakeAt <= now
        then s.flights[id := f.(phase := Reading, slices := s.loaded, readAt := s.step,
                                receipt := if s.force || s.shown.snapshot.None? then None
                                           else Subject(s.shown.snapshot.value),
                                retry := f.retry.(attempt := f.retry.attempt + 1))]
        else s.flights)
  {}

  // ---- What a request starts ----

  // The request names slices that are not loaded.
  predicate IsNew(s: Store, slices: set<Slice>) {
    exists x :: x in slices && x !in s.loaded
  }

  // What is loaded grows by the slices that were asked for, and a full answer is owed for new ones. While a
  // flight is under way the request joins it, and supersedes what it reads if it reports a change; otherwise it
  // starts one, which asks for everything that is loaded and, if no full answer is owed, sends the receipt of
  // what is shown. A disposed store starts nothing.
  lemma RequestsJoinOrStart(s: Store, e: Event, now: int)
    requires RefreshOk(s, s.step)
    requires e.Refresh? || e.Ensure? || (e.Acquire? && e.slices != {})
    ensures var slices := if e.Refresh? then {} else e.slices;
            var changed := if e.Refresh? then e.changed else IsNew(s, slices);
            var asks := e.Refresh? || changed || (s.inFlight.None? && s.shown.snapshot.None?);
            var g := Step(s, e, now);
      && g.loaded == s.loaded + slices && (g.force <==> s.force || IsNew(s, slices))
      && (if s.disposed || !asks then
            g.flights == s.flights && g.inFlight == s.inFlight && g.generation == s.generation && g.shown == s.shown
          else if s.inFlight.Some? then
            && g.flights == s.flights && g.inFlight == s.inFlight && g.shown == s.shown
            && g.generation == s.generation + (if changed then 1 else 0)
          else
            && g.inFlight == Some(s.step) && g.generation == s.generation + 1
            && g.shown == s.shown.(loading := true) && s.step !in s.flights
            && s.step in g.flights && g.flights == s.flights[s.step := g.flights[s.step]]
            && var f := g.flights[s.step];
               && f.phase.Reading? && f.slices == g.loaded && f.generation == g.generation && !f.aborted
               && f.receipt == (if g.force || s.shown.snapshot.None? then None
                                else Subject(s.shown.snapshot.value))
               && f.begunAt == f.readAt == s.step && f.retry.attempt == 0)
  {
    hide RefreshOk, Refreshed, Taken;
    FlightNamesAreOld(s);
    if e.Refresh? {
      RefreshJoins(s, e.changed, now);
    } else {
      NewIsAdded(s, e.slices);
      RefreshJoins(Loading(s, e.slices), Adds(s, e.slices), now);
    }
  }

  lemma NewIsAdded(s: Store, slices: set<Slice>)
    ensures Adds(s, slices) <==> IsNew(s, slices)
    ensures !IsNew(s, slices) ==> s.loaded + slices == s.loaded
  {}

  lemma RefreshJoins(s: Store, changed: bool, now: int)
    requires s.step !in s.flights
    ensures var g := Refreshed(s, changed, now);
      && g.loaded == s.loaded && g.force == s.force && g.step == s.step
      && (if s.disposed then
            g.flights == s.flights && g.inFlight == s.inFlight && g.generation == s.generation && g.shown == s.shown
          else if s.inFlight.Some? then
            && g.flights == s.flights && g.inFlight == s.inFlight && g.shown == s.shown
            && g.generation == s.generation + (if changed then 1 else 0)
          else
            && g.inFlight == Some(s.step) && g.generation == s.generation + 1
            && g.shown == s.shown.(loading := true)
            && s.step in g.flights && g.flights == s.flights[s.step := g.flights[s.step]]
            && var f := g.flights[s.step];
               && f.phase.Reading? && f.slices == s.loaded && f.generation == g.generation && !f.aborted
               && f.receipt == (if s.force || s.shown.snapshot.None? then None
                                else Subject(s.shown.snapshot.value))
               && f.begunAt == f.readAt == s.step && f.retry.attempt == 0)
  {}

  lemma FlightNamesAreOld(s: Store)
    requires RefreshOk(s, s.step)
    ensures s.step !in s.flights
  {
    hide CurrentOk, ShownOk;
  }

  // What supersedes a read under way: a move, and in a store that is not disposed of a request that reports a
  // change or asks for new slices, or that finds no flight and starts one.
  lemma SupersedesWhen(s: Store, e: Event)
    ensures Supersedes(s, e) <==>
      || e.Move?
      || (!s.disposed && e.Refresh? && (e.changed || s.inFlight.None?))
      || (!s.disposed && (e.Ensure? || e.Acquire?)
          && (IsNew(s, e.slices) || ((e.Ensure? || e.slices != {}) && s.inFlight.None? && s.shown.snapshot.None?)))
  {
    if e.Ensure? || e.Acquire? { NewIsAdded(s, e.slices); }
  }

  // A move aborts and detaches the flight, owes a full answer, keeps what is loaded and every lease, and shows
  // nothing of the repository that was left.
  lemma MovesStartOver(s: Store, cached: Option<Snapshot>, now: int)
    ensures var g := Step(s, Move(cached), now);
      && g.generation == s.generation + 1 && g.inFlight == None && g.force && g.moves == s.moves + 1
      && g.loaded == s.loaded && g.counts == s.counts && g.leases == s.leases && g.disposers == s.disposers
      && g.flights.Keys == s.flights.Keys
      && (forall id | id in s.flights ::
            g.flights[id] == if s.inFlight == Some(id) then s.flights[id].(aborted := true) else s.flights[id])
      && (g.shown.snapshot.Some? <==> cached.Some?) && (g.shown.stale <==> cached.Some?)
      && g.shown.error == None && !g.shown.loading
  {
    hide WithoutEphemeral;
  }

  // A flight that has settled is over, and makes way for the next one if it is the current one.
  lemma SettlingEnds(s: Store, id: nat, now: int)
    requires id in s.flights && s.flights[id].phase.Settling?
    ensures Step(s, Settle(id), now) ==
            s.(flights := s.flights[id := s.flights[id].(phase := Done)], step := s.step + 1,
               inFlight := if s.inFlight == Some(id) then None else s.inFlight)
  {}

  // ---- What a lease that ends gives back ----

  // A lease that is held ends by its disposal, by its timer if it has one, and with the store, and only then.
  lemma LeasesEnd(s: Store, e: Event, now: int, l: nat)
    requires LeasesOk(s, s.step) && l in s.leases && s.leases[l].holding.Held?
    ensures var g := Step(s, e, now);
      && l in g.leases && g.leases[l].slices == s.leases[l].slices
      && (g.leases[l].holding.Held? || g.leases[l].holding.Returned?)
      && (g.leases[l].holding.Returned? <==>
            e == DisposeLease(l) || e == DisposeStore || (e == Expire(l) && s.leases[l].timed))
      && (g.leases[l].timed <==> !g.leases[l].holding.Returned? && (e == Renew(l) || s.leases[l].timed))
  {
    hide FlightEffect, RequestEffect, LeaseEffect, CountsOk;
    if OfFlight(e) {
      FlightLeavesLeases(s, e, now);
    } else if OfLease(e) {
      LeaseEventEnds(s, e, l);
    } else {
      RequestLeavesLeases(s, e, now, l);
    }
  }

  lemma LeaseEventEnds(s: Store, e: Event, l: nat)
    requires LeasesOk(s, s.step) && OfLease(e) && l in s.leases && s.leases[l].holding.Held?
    ensures var g := LeaseEffect(s, e);
      && l in g.leases && g.leases[l].slices == s.leases[l].slices
      && (g.leases[l].holding.Held? || g.leases[l].holding.Returned?)
      && (g.leases[l].holding.Returned? <==>
            e == DisposeLease(l) || e == DisposeStore || (e == Expire(l) && s.leases[l].timed))
      && (g.leases[l].timed <==> !g.leases[l].holding.Returned? && (e == Renew(l) || s.leases[l].timed))
  {
    hide Return, AllDisposed, StoreDisposed, LeasesOk;
    if e.DisposeStore? {
      DisposedStoreHoldsNothing(s, l);
    } else if !e.Renew? && e.lease in s.leases {
      ReturnedLeases(s, e.lease);
    }
  }

  lemma ReturnedLeases(s: Store, l: nat)
    requires l in s.leases
    ensures Return(s, l).leases == s.leases[l := Lease(s.leases[l].slices, Returned, false)]
  {
    hide Freed, PayloadsOf, WithoutPayloads, Dropped, Remove;
  }

  lemma RequestLeavesLeases(s: Store, e: Event, now: int, l: nat)
    requires !OfFlight(e) && !OfLease(e) && l in s.leases && l != s.step
    ensures l in RequestEffect(s, e, now).leases && RequestEffect(s, e, now).leases[l] == s.leases[l]
  {
    hide WithoutEphemeral, Launched, Taken, Aborting, Bumped;
  }

  lemma DisposedStoreHoldsNothing(s: Store, l: nat)
    requires LeasesOk(s, s.step) && l in s.leases && s.leases[l].holding.Held?
    ensures l in StoreDisposed(s).leases
            && StoreDisposed(s).leases[l] == Lease(s.leases[l].slices, Returned, false)
  {
    hide CountsOk, LeaseDisposed;
    assert l in s.disposers;
    AllAreReturned(s.(disposed := true, flights := Aborting(s.flights, s.inFlight)), s.disposers, l);
  }

  lemma {:induction false} AllAreReturned(s: Store, order: seq<nat>, l: nat)
    requires l in s.leases
    ensures l in AllDisposed(s, order).leases
    ensures AllDisposed(s, order).leases[l] ==
            if l in order && s.leases[l].holding.Held? then Lease(s.leases[l].slices, Returned, false) else s.leases[l]
  {
    hide Return;
    if order != [] {
      var front := AllDisposed(s, order[..|order| - 1]);
      AllAreReturned(s, order[..|order| - 1], l);
      if order[|order| - 1] in front.leases { ReturnedLeases(front, order[|order| - 1]); }
    }
  }

  // The lease gives back each of its slices once: the last holder of a slice that is not one of the core unloads
  // it, with its payload, and every other slice stays loaded. The other leases are not touched.
  lemma LeasesGiveBack(s: Store, e: Event, now: int, l: nat, x: Slice)
    requires LeasesOk(s, s.step) && l in s.leases && s.leases[l].holding.Held?
    requires e == DisposeLease(l) || (e == Expire(l) && s.leases[l].timed)
    ensures var g := Step(s, e, now);
      && g.leases == s.leases[l := Lease(s.leases[l].slices, Returned, false)]
      && CountOf(g.counts, x) == CountOf(s.counts, x) - (if x in s.leases[l].slices then 1 else 0)
      && (x in g.loaded <==>
            x in s.loaded && !(x in s.leases[l].slices && CountOf(s.counts, x) == 1
                               && x !in {Repository, Lifecycle, Capabilities}))
      && (x in Payloads(g.shown) <==>
            x in Payloads(s.shown)
            && !(x in s.leases[l].slices && CountOf(s.counts, x) == 1 && (x == Sgos || x == Comprehension)))
      && g.flights == s.flights && g.inFlight == s.inFlight && g.generation == s.generation && g.force == s.force
  {
    hide Step, Return, CountsOk, Payloads;
    EndingReturns(s, e, now, l);
    ReturnedLeases(s, l);
    CountIs(s.counts, s.leases, x);
    assert l in Holders(s.leases, x) <==> x in s.leases[l].slices;
    if x in s.leases[l].slices { SomeHolder(Holders(s.leases, x), l); }
    ReturnGives(s, l, x);
  }

  lemma EndingReturns(s: Store, e: Event, now: int, l: nat)
    requires l in s.leases && s.leases[l].holding.Held?
    requires e == DisposeLease(l) || (e == Expire(l) && s.leases[l].timed)
    ensures Step(s, e, now) == Return(s, l).(step := s.step + 1)
  {
    hide Released;
  }

  lemma ReturnGives(s: Store, l: nat, x: Slice)
    requires l in s.leases && (x in s.leases[l].slices ==> CountOf(s.counts, x) >= 1)
    ensures var g, slices := Return(s, l), s.leases[l].slices;
      && CountOf(g.counts, x) == CountOf(s.counts, x) - (if x in slices then 1 else 0)
      && (x in g.loaded <==>
            x in s.loaded && !(x in slices && CountOf(s.counts, x) == 1
                               && x !in {Repository, Lifecycle, Capabilities}))
      && (x in Payloads(g.shown) <==>
            x in Payloads(s.shown) && !(x in slices && CountOf(s.counts, x) == 1 && (x == Sgos || x == Comprehension)))
      && g.flights == s.flights && g.inFlight == s.inFlight && g.generation == s.generation && g.force == s.force
  {
    hide Remove, Without, WithoutPayloads, Payloads;
    PayloadsGo(s.shown, PayloadsOf(s.shown, Freed(s.counts, s.leases[l].slices)), x);
    PayloadsAre(Return(s, l).shown, s.shown, PayloadsOf(s.shown, Freed(s.counts, s.leases[l].slices)));
    PayloadsShown(s.shown, x);
  }

  lemma PayloadsAre(after: Shown, before: Shown, payloads: set<Slice>)
    requires after.snapshot == WithoutPayloads(before.snapshot, payloads)
    ensures Payloads(after) == Payloads(before.(snapshot := WithoutPayloads(before.snapshot, payloads)))
  {}

  lemma PayloadsShown(shown: Shown, x: Slice)
    ensures x in Payloads(shown) <==> shown.snapshot.Some? && x in shown.snapshot.value.payload
  {}

  lemma SomeHolder(some: set<nat>, l: nat)
    requires l in some
    ensures |some| >= 1
  {}

  function Payloads(shown: Shown): set<Slice> {
    if shown.snapshot.Some? then shown.snapshot.value.payload.Keys else {}
  }

  lemma PayloadsGo(shown: Shown, payloads: set<Slice>, x: Slice)
    ensures Payloads(shown.(snapshot := WithoutPayloads(shown.snapshot, payloads))) == Payloads(shown) - payloads
  {}

  // An acquisition under way becomes a lease when what it waited for is over, or gives its slices back.
  lemma AcquisitionsResolve(s: Store, l: nat, ok: bool, now: int)
    requires l in s.leases && s.leases[l].holding.Pending?
    ensures var g, flight := Step(s, Resolve(l, ok), now), s.leases[l].holding.flight;
      g.leases == s.leases[l :=
        if flight.Some? && !(flight.value in s.flights && s.flights[flight.value].phase.Done?) then s.leases[l]
        else if ok then s.leases[l].(holding := Held)
        else Lease(s.leases[l].slices, Returned, false)]
  {
    hide Released;
    ReturnedLeases(s, l);
  }

  // An acquisition counts its slices at once and waits for the flight under way, for the one it starts, or for
  // nothing; its name is new.
  lemma AcquisitionsCount(s: Store, slices: set<Slice>, timed: bool, now: int, x: Slice)
    requires LeasesOk(s, s.step) && RefreshOk(s, s.step) && slices != {}
    ensures var g := Step(s, Acquire(slices, timed), now);
      && s.step !in s.leases && s.step in g.leases && g.leases == s.leases[s.step := g.leases[s.step]]
      && g.leases[s.step] ==
         Lease(slices, Pending(if !s.disposed && s.inFlight.None? && (IsNew(s, slices) || s.shown.snapshot.None?)
                               then Some(s.step)
                               else if s.disposed && (IsNew(s, slices) ||
                                                      (s.inFlight.None? && s.shown.snapshot.None?)) then None
                               else s.inFlight), timed)
      && CountOf(g.counts, x) == CountOf(s.counts, x) + (if x in slices then 1 else 0)
  {
    hide RefreshOk, Refreshed, CountsOk, Loading;
    assert s.step !in s.leases;
    NewIsAdded(s, slices);
    RefreshLeavesLeases(s, slices, now);
  }

  lemma RefreshLeavesLeases(s: Store, slices: set<Slice>, now: int)
    ensures var g := Ensured(s, slices, now); g.counts == s.counts && g.leases == s.leases
  {
    hide Launched, Bumped;
  }
}
