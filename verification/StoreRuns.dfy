// What the store promises over whole runs.
module StoreRuns {
  import opened Snapshots
  import opened RetryBudgets
  import opened WorkspaceStores
  import opened Wrappers

  // Requests that make the answer of a running read unpublishable.
  predicate Supersedes(s: Store, e: Event) {
    match e
    case Refresh(changed) => !s.disposed && (changed || s.inFlight.None?)
    case Ensure(slices) => !s.disposed && Asks(s, slices)
    case Acquire(slices, _) => slices != {} && !s.disposed && Asks(s, slices)
    case Move(_) => true
    case _ => false
  }

  lemma {:induction false} AllDisposedOnlyReleases(s: Store, order: seq<nat>)
    ensures var g := AllDisposed(s, order);
      && g.generation == s.generation && g.moves == s.moves && g.force == s.force && g.step == s.step
      && g.loaded <= s.loaded
      && g.flights == s.flights && g.inFlight == s.inFlight && g.disposed == s.disposed
  {
    if order != [] {
      AllDisposedOnlyReleases(s, order[..|order| - 1]);
      hide Freed, PayloadsOf, WithoutPayloads, Dropped, Remove;
    }
  }

  lemma LeaseOnlyReleases(s: Store, e: Event)
    requires OfLease(e)
    ensures var g := LeaseEffect(s, e);
      && g.generation == s.generation && g.moves == s.moves && g.force == s.force && g.step == s.step
      && g.loaded <= s.loaded
      && (g.flights == s.flights || g.flights == Aborting(s.flights, s.inFlight)) && g.inFlight == s.inFlight
      && (s.disposed ==> g.disposed)
  {
    hide Freed, PayloadsOf, WithoutPayloads, Dropped, Remove, AllDisposed, Aborting;
    AllDisposedOnlyReleases(s.(disposed := true, flights := Aborting(s.flights, s.inFlight)), s.disposers);
  }

  lemma RepliedOnlyAdvances(s: Store, id: nat, e: Event, now: int)
    requires id in s.flights
    ensures var g := Replied(s, id, e, now);
      && g.generation == s.generation && g.moves == s.moves && g.step == s.step && g.loaded == s.loaded
      && g.flights.Keys == s.flights.Keys && g.disposed == s.disposed
  {}

  lemma FlightOnlyAdvances(s: Store, e: Event, now: int)
    requires OfFlight(e)
    ensures var g := FlightEffect(s, e, now);
      && g.generation == s.generation && g.moves == s.moves && g.step == s.step && g.loaded == s.loaded
      && g.flights.Keys == s.flights.Keys && g.disposed == s.disposed
  {
    hide Replied;
    if e.flight in s.flights { RepliedOnlyAdvances(s, e.flight, e, now); }
  }

  lemma SupersedingBumps(s: Store, e: Event, now: int)
    ensures Step(s, e, now).generation == s.generation + (if Supersedes(s, e) then 1 else 0)
  {
    hide LeaseEffect, FlightEffect, Taken, WithoutEphemeral, Aborting, Launched;
    if OfLease(e) { LeaseOnlyReleases(s, e); }
    if OfFlight(e) { FlightOnlyAdvances(s, e, now); }
  }

  // ---- What a flight remembers ----

  ghost predicate Began(g: Store, f: Flight, at: nat) {
    f.begunAt == at && f.generation == g.generation && f.readIn == g.moves
  }

  ghost predicate Read(g: Store, f: Flight, at: nat) {
    f.readAt == at && f.slices == g.loaded && f.receipt == (if g.force then None else ShownSubject(g.shown))
  }

  ghost predicate New(g: Store, f: Flight, at: nat) {
    Began(g, f, at) && Read(g, f, at) && f.startedIn == g.generation && f.phase.Reading?
  }

  ghost predicate Evolves(s: Store, g: Store, before: Flight, after: Flight) {
    && after.startedIn == before.startedIn
    && (Began(g, after, s.step) ||
        (before.begunAt == after.begunAt && before.generation == after.generation && before.readIn == after.readIn
         && after.iterations == before.iterations))
    && (Read(g, after, s.step) ||
        (before.readAt == after.readAt && before.slices == after.slices && before.receipt == after.receipt))
  }

  lemma RepliedKeepsOthers(s: Store, id: nat, e: Event, now: int)
    requires id in s.flights
    ensures var g := Replied(s, id, e, now); g.flights == s.flights[id := g.flights[id]] && g.disposed == s.disposed
  {}

  lemma RepliedEvolves(s: Store, id: nat, e: Event, now: int)
    requires id in s.flights
    ensures var g := Replied(s, id, e, now); Evolves(s, g, s.flights[id], g.flights[id])
  {}

  lemma FlightEvolves(s: Store, e: Event, now: int, id: nat)
    requires OfFlight(e) && id in s.flights
    ensures var g := FlightEffect(s, e, now); id in g.flights && Evolves(s, g, s.flights[id], g.flights[id])
  {
    hide Replied;
    if e.flight in s.flights && !e.Settle? {
      RepliedKeepsOthers(s, e.flight, e, now);
      RepliedEvolves(s, e.flight, e, now);
    }
  }

  // A request launches at most one flight, and never touches what others remember.
  ghost predicate Launches(s: Store, g: Store) {
    || g.flights == s.flights
    || g.flights == Aborting(s.flights, s.inFlight)
    || (&& s.step in g.flights && g.flights == s.flights[s.step := g.flights[s.step]]
        && New(g, g.flights[s.step], s.step))
  }

  lemma RefreshLaunches(s: Store, changed: bool, now: int)
    ensures Launches(s, Refreshed(s, changed, now))
  {}

  lemma RequestLaunches(s: Store, e: Event, now: int)
    requires !OfFlight(e) && !OfLease(e)
    ensures Launches(s, RequestEffect(s, e, now))
  {
    hide Taken, WithoutEphemeral, Aborting, Refreshed, Adds;
    match e
    case Refresh(changed) => RefreshLaunches(s, changed, now);
    case Ensure(slices) => RefreshLaunches(Loading(s, slices), Adds(s, slices), now);
    case Acquire(slices, timed) => RefreshLaunches(Loading(s, slices), Adds(s, slices), now);
    case Prime(cached) =>
    case Move(cached) =>
  }

  lemma StepEvolves(s: Store, e: Event, now: int, id: nat)
    requires RefreshOk(s, s.step)
    ensures var g := Step(s, e, now);
      && (id in s.flights ==> id in g.flights && Evolves(s, g, s.flights[id], g.flights[id]))
      && (id in g.flights && id !in s.flights ==>
            id == s.step && New(g, g.flights[id], s.step))
  {
    hide LeaseEffect, FlightEffect, RequestEffect, CurrentOk, ShownOk, Began, Read;
    if OfFlight(e) {
      FlightOnlyAdvances(s, e, now);
      if id in s.flights { FlightEvolves(s, e, now, id); TickEvolves(s, FlightEffect(s, e, now), s.flights[id], id); }
    } else {
      if OfLease(e) { LeaseOnlyReleases(s, e); } else { RequestLaunches(s, e, now); }
      LaunchEvolves(s, Effect(s, e, now), id);
    }
  }

  lemma TickEvolves(s: Store, g: Store, f: Flight, id: nat)
    requires id in g.flights && Evolves(s, g, f, g.flights[id])
    ensures Evolves(s, g.(step := s.step + 1), f, g.flights[id])
  {}

  lemma LaunchEvolves(s: Store, g: Store, id: nat)
    requires Launches(s, g) && FlightsOk(s.flights, s.inFlight, s.generation, s.disposed, s.step)
    ensures var g' := g.(step := s.step + 1);
      && (id in s.flights ==> id in g'.flights && Evolves(s, g', s.flights[id], g'.flights[id]))
      && (id in g'.flights && id !in s.flights ==>
            id == s.step && New(g', g'.flights[id], s.step))
  {}

  lemma RunUnfolds(events: seq<Timed>)
    requires events != []
    ensures var front, last := events[..|events| - 1], events[|events| - 1];
      Run(events) == Step(Run(front), last.event, last.now)
  {}

  lemma {:induction false} GenerationGrows(events: seq<Timed>, i: nat)
    requires i <= |events|
    ensures Run(events[..i]).generation <= Run(events).generation
    ensures Run(events[..i]).generation == Run(events).generation <==>
            forall k | i <= k < |events| :: !Supersedes(Run(events[..k]), events[k].event)
  {
    hide Run, Step, Supersedes;
    if i < |events| {
      var front, last := events[..|events| - 1], events[|events| - 1];
      GenerationGrows(front, i);
      RunUnfolds(events);
      SupersedingBumps(Run(front), last.event, last.now);
      assert front[..i] == events[..i] && events[..|front|] == front && events[|front|] == last;
      assert forall k | i <= k < |front| :: front[..k] == events[..k] && front[k] == events[k];
    } else {
      assert events[..i] == events;
    }
  }

  // ---- What a flight remembers is how things stood when it began and when it read ----

  ghost predicate Remembers(events: seq<Timed>, id: nat, f: Flight) {
    && id <= f.begunAt <= f.readAt < |events|
    && f.startedIn == Run(events[..id + 1]).generation
    && Began(Run(events[..f.begunAt + 1]), f, f.begunAt)
    && Read(Run(events[..f.readAt + 1]), f, f.readAt)
  }

  lemma NoFlightsAtFirst(events: seq<Timed>, id: nat)
    requires id in Run(events).flights
    ensures events != []
  {}

  lemma {:induction false} FlightsRemember(events: seq<Timed>, id: nat)
    requires id in Run(events).flights
    ensures Remembers(events, id, Run(events).flights[id])
  {
    hide Run, Step, RefreshOk, LeasesOk;
    StoreInvariant(events);
    NoFlightsAtFirst(events, id);
    RunUnfolds(events);
    var front, last := events[..|events| - 1], events[|events| - 1];
    var s, f := Run(front), Run(events).flights[id];
    StoreInvariant(front);
    StepEvolves(s, last.event, last.now, id);
    FlightIsOk(Run(events), id, |events|);
    if id in s.flights { FlightsRemember(front, id); }
    if id < |front| { assert front[..id + 1] == events[..id + 1]; }
    if f.begunAt < |front| { assert front[..f.begunAt + 1] == events[..f.begunAt + 1]; }
    if f.readAt < |front| { assert front[..f.readAt + 1] == events[..f.readAt + 1]; }
    assert events[..|events|] == events;
  }

  // The store began an attempt in event `at`.
  ghost predicate Attempts(s: Store, at: nat) {
    exists id :: id in s.flights && s.flights[id].readAt == at
  }

  // The attempt a flight remembers is the one its state showed right after it began.
  lemma {:induction false} AttemptIsThere(events: seq<Timed>, id: nat)
    requires id in Run(events).flights
    ensures var f := Run(events).flights[id];
      f.readAt < |events| &&
      var began := Run(events[..f.readAt + 1]);
      id in began.flights && began.flights[id].readAt == f.readAt && Attempts(began, f.readAt)
  {
    hide Step, RefreshOk, LeasesOk;
    StoreInvariant(events);
    FlightsRemember(events, id);
    var front, last := events[..|events| - 1], events[|events| - 1];
    var s, f := Run(front), Run(events).flights[id];
    StoreInvariant(front);
    StepEvolves(s, last.event, last.now, id);
    assert events[..|events|] == events;
    if f.readAt < |front| {
      AttemptIsThere(front, id);
      assert front[..f.readAt + 1] == events[..f.readAt + 1];
    }
  }

  lemma FlightIsOk(s: Store, id: nat, n: nat)
    requires RefreshOk(s, n) && id in s.flights
    ensures FlightOk(id, s.flights[id], s.inFlight, s.generation, s.disposed, n)
  {}

  // ---- Publication safety ----

  ghost predicate Publishes(s: Store, e: Event, now: int) {
    OfFlight(e) && e.flight in s.flights && TurnOf(s, s.flights[e.flight], e, now).Publish?
  }

  // Nothing is published by a loop whose iteration began before a request that supersedes it, by a
  // flight that is not the current one, or from another repository than the current one.
  lemma PublicationSafety(events: seq<Timed>, k: nat)
    requires k < |events| && Publishes(Run(events[..k]), events[k].event, events[k].now)
    ensures var s := Run(events[..k]); var f := s.flights[events[k].event.flight];
      && s.inFlight == Some(events[k].event.flight)
      && f.begunAt < k && f.readIn == s.moves == Run(events[..f.begunAt + 1]).moves
      && forall i | f.begunAt < i < k :: !Supersedes(Run(events[..i]), events[i].event)
  {
    hide Run, Supersedes, RefreshOk, LeasesOk, TurnOf;
    var before, e := events[..k], events[k].event;
    var s, f := Run(before), Run(before).flights[e.flight];
    StoreInvariant(before);
    TurnFits(s, f, e, events[k].now);
    FlightIsOk(s, e.flight, k);
    CurrentReadsHere(s, e.flight, k);
    FlightsRemember(before, e.flight);
    GenerationGrows(before, f.begunAt + 1);
    assert before[..f.begunAt + 1] == events[..f.begunAt + 1];
    assert forall i | f.begunAt < i < k :: before[..i] == events[..i] && before[i] == events[i];
  }

  lemma CurrentReadsHere(s: Store, id: nat, n: nat)
    requires RefreshOk(s, n)
    ensures Current(s, id) ==> s.inFlight == Some(id) && s.flights[id].readIn == s.moves
  {}

  // What is read in full was asked for all that is loaded now, so a slice it brings that nobody loads
  // any more was given back while the read ran.
  lemma FullReadCoversLoaded(events: seq<Timed>, id: nat)
    requires var s := Run(events);
             s.inFlight == Some(id) && Current(s, id) && s.flights[id].phase.Reading? && !s.disposed
    ensures var s := Run(events); var f := s.flights[id];
      && s.loaded <= f.slices && f.readAt < |events| && f.slices == Run(events[..f.readAt + 1]).loaded
      && (s.force ==> f.receipt == None)
  {
    hide Run, Step, RefreshOk, LeasesOk;
    StoreInvariant(events);
    CurrentReadIsOk(Run(events), id, |events|);
    FlightsRemember(events, id);
  }

  lemma CurrentReadIsOk(s: Store, id: nat, n: nat)
    requires RefreshOk(s, n) && Current(s, id) && s.flights[id].phase.Reading?
    ensures s.inFlight == Some(id) && AttemptOk(s.flights[id], s.shown, s.loaded, s.force, s.disposed)
  {}

  // ---- Answers that must be full ----

  // A move, or a slice that was not loaded, must not be answered by a receipt.
  predicate OwesFull(s: Store, e: Event) {
    match e
    case Move(_) => true
    case Ensure(slices) => Adds(s, slices)
    case Acquire(slices, _) => Adds(s, slices)
    case _ => false
  }

  ghost predicate PublishesFull(s: Store, e: Event, now: int) {
    Publishes(s, e, now) && TurnOf(s, s.flights[e.flight], e, now).full
  }

  lemma DebtStays(s: Store, e: Event, now: int)
    requires s.force || OwesFull(s, e)
    ensures Step(s, e, now).force || PublishesFull(s, e, now)
  {
    if OfLease(e) { LeaseOnlyReleases(s, e); }
    hide TurnOf, Turned, LeaseEffect, Launched, Bumped, Taken, WithoutEphemeral, Aborting;
  }

  ghost predicate NothingFullFrom(events: seq<Timed>, i: nat) {
    forall k | i < k < |events| :: !PublishesFull(Run(events[..k]), events[k].event, events[k].now)
  }

  lemma {:induction false} DebtIsKept(events: seq<Timed>, i: nat)
    requires i < |events| && OwesFull(Run(events[..i]), events[i].event) && NothingFullFrom(events, i)
    ensures Run(events).force
  {
    hide Step, OwesFull, PublishesFull;
    var front, last := events[..|events| - 1], events[|events| - 1];
    assert forall k | 0 <= k < |front| :: front[..k] == events[..k] && front[k] == events[k];
    if i < |front| {
      DebtIsKept(front, i);
      assert Run(front) == Run(events[..|events| - 1]);
    } else {
      OwingIsNotPublishing(Run(front), last.event, last.now);
    }
    DebtStays(Run(front), last.event, last.now);
  }

  lemma OwingIsNotPublishing(s: Store, e: Event, now: int)
    requires OwesFull(s, e)
    ensures !PublishesFull(s, e, now)
  {}

  // Until a full answer has been published after a move, or after a slice was added, every attempt that
  // begins asks for one: none of them can be answered by a receipt.
  lemma OwedAnswersAreFull(events: seq<Timed>, i: nat, id: nat)
    requires i < |events| && OwesFull(Run(events[..i]), events[i].event) && NothingFullFrom(events, i)
    requires id in Run(events).flights && i < Run(events).flights[id].readAt
    ensures Run(events).flights[id].receipt == None
  {
    hide Run, OwesFull;
    FlightsRemember(events, id);
    var at := Run(events).flights[id].readAt;
    var then' := events[..at + 1];
    assert then'[..i] == events[..i];
    assert forall k | 0 <= k < |then'| :: then'[..k] == events[..k] && then'[k] == events[k];
    DebtIsKept(then', i);
  }

  // What a recovery shows of each slice: the leased independent ones come from their own read where it
  // brought them, everything else from the configuration inventory. The digest comes along, unless the
  // read gave none and the inventory did.
  lemma RecoveryIsAssembledBySlice(configuration: Snapshot, leased: set<Slice>, extra: Option<Snapshot>, x: Slice)
    ensures var r := Recovery(configuration, leased, extra);
            var own := extra.Some? && x in leased * {Comprehension, Sgos, Diagnostics} && x in extra.value.payload;
            var source := if own then extra.value else configuration;
      && (x in r.payload <==> x in source.payload) && (x in r.payload ==> r.payload[x] == source.payload[x])
      && (Digest(Digests(r), x) == Digest(Digests(source), x) <==>
            !(own && x !in Digests(source) && x in Digests(configuration)))
  {
    if extra.Some? {
      hide WithSlices, Keep;
      var unwanted := set y: Slice | y !in leased || y !in extra.value.payload;
      var present := Keep([Comprehension, Sgos, Diagnostics], unwanted);
      forall y ensures y in present <==> y in leased * INDEPENDENT_SLICES && y in extra.value.payload {
        KeepKeeps([Comprehension, Sgos, Diagnostics], unwanted, y);
      }
      if present == [] {
        assert x !in present;
      } else {
        RecoveryKeepsSlicesWhole(configuration, extra.value, present, x);
      }
    }
  }

  // A receipt is laid over exactly the snapshot it certifies, unless a payload was dropped since the
  // attempt began, and then never.
  lemma ReceiptIsCertified(events: seq<Timed>, id: nat)
    requires var s := Run(events); Current(s, id) && s.flights[id].phase.Reading? && s.flights[id].receipt.Some?
    ensures var s := Run(events); var f := s.flights[id];
      && s.shown.snapshot.Some?
      && f.readAt < |events| && f.receipt == ShownSubject(Run(events[..f.readAt + 1]).shown)
      && (ShownSubject(s.shown) == f.receipt <==> s.shown.droppedAt <= f.readAt)
  {
    hide Run, Step, RefreshOk, LeasesOk;
    StoreInvariant(events);
    CurrentReadIsOk(Run(events), id, |events|);
    FlightsRemember(events, id);
  }

  lemma FlightEffects(s: Store, e: Event, now: int)
    requires OfFlight(e)
    ensures FlightEffect(s, e, now) ==
            if e.flight !in s.flights then s
            else if !e.Settle? then Replied(s, e.flight, e, now)
            else if s.flights[e.flight].phase.Settling? then Settled(s, e.flight) else s
  {
    hide TurnOf, Turned, Replied, Settled;
  }

  // A flight that was detached by a move, or that has ended, changes nothing listeners can see and
  // never makes way for itself.
  lemma OldFlightsAreSilent(s: Store, e: Event, now: int)
    requires RefreshOk(s, s.step) && OfFlight(e) && s.inFlight != Some(e.flight)
    ensures var g := FlightEffect(s, e, now);
      g.shown == s.shown && g.inFlight == s.inFlight && g.force == s.force && g.loaded == s.loaded
  {
    hide RefreshOk, TurnOf, Turned, FlightEffect;
    FlightEffects(s, e, now);
    if e.flight in s.flights {
      FlightIsOk(s, e.flight, s.step);
      TurnFits(s, s.flights[e.flight], e, now);
    }
  }

  // Nothing shown was read before the last move, even when the window moved away and back, and the
  // spinner turns exactly while the current loop runs.
  lemma NothingFromBeforeTheMove(events: seq<Timed>)
    ensures var s := Run(events);
      && (s.shown.snapshot.Some? ==> s.shown.readIn == s.moves)
      && (s.shown.error.Some? ==> s.shown.errorIn == s.moves)
      && (!s.disposed ==> (s.shown.loading <==>
            s.inFlight.Some? && s.inFlight.value in s.flights && Looping(s.flights[s.inFlight.value])))
  {
    StoreInvariant(events);
    hide Run;
  }

  // ---- What is marked stale ----

  // The event shows a snapshot from the cache.
  predicate Restores(s: Store, e: Event) {
    match e
    case Prime(cached) => s.shown.snapshot.None? && cached.Some?
    case Move(cached) => cached.Some?
    case _ => false
  }

  // The event shows what the engine answered, or its receipt for what is shown.
  ghost predicate Confirms(s: Store, e: Event, now: int) {
    Publishes(s, e, now) && ((e.SnapshotReply? && e.reply.Answer?) || e.IndependentReply?)
  }

  // Releasing leases changes neither whether something is shown nor how it is marked.
  lemma {:induction false} DisposalKeepsMarks(s: Store, order: seq<nat>)
    ensures var g := AllDisposed(s, order);
      g.shown.stale == s.shown.stale && (g.shown.snapshot.Some? <==> s.shown.snapshot.Some?)
  {
    if order != [] {
      DisposalKeepsMarks(s, order[..|order| - 1]);
      hide Freed, PayloadsOf, Dropped, Remove, Without;
    }
  }

  lemma ReturnKeepsMarks(s: Store, l: nat)
    requires l in s.leases
    ensures var g := Return(s, l);
      g.shown.stale == s.shown.stale && (g.shown.snapshot.Some? <==> s.shown.snapshot.Some?)
  {
    hide Freed, PayloadsOf, Dropped, Remove, Without;
  }

  lemma LeaseKeepsMarks(s: Store, e: Event)
    requires OfLease(e)
    ensures var g := LeaseEffect(s, e);
      g.shown.stale == s.shown.stale && (g.shown.snapshot.Some? <==> s.shown.snapshot.Some?)
  {
    hide Return, AllDisposed, Aborting;
    match e
    case Resolve(l, _) => if l in s.leases { ReturnKeepsMarks(s, l); }
    case Renew(l) =>
    case Expire(l) => if l in s.leases { ReturnKeepsMarks(s, l); }
    case DisposeLease(l) => if l in s.leases { ReturnKeepsMarks(s, l); }
    case DisposeStore =>
      DisposalKeepsMarks(s.(disposed := true, flights := Aborting(s.flights, s.inFlight)), s.disposers);
  }

  lemma FlightMarks(s: Store, e: Event, now: int)
    requires OfFlight(e)
    ensures var g := FlightEffect(s, e, now);
      && (Confirms(s, e, now) ==> g.shown.snapshot.Some? && !g.shown.stale)
      && (!Confirms(s, e, now) ==> g.shown.snapshot == s.shown.snapshot && g.shown.stale == s.shown.stale)
  {
    hide Turned, Accept, ChangedSlices, Recovery;
  }

  lemma StepMarks(s: Store, e: Event, now: int)
    ensures var g := Step(s, e, now);
      && (Restores(s, e) ==> g.shown.snapshot.Some? && g.shown.stale && !Confirms(s, e, now))
      && (Confirms(s, e, now) ==> g.shown.snapshot.Some? && !g.shown.stale)
      && (!Restores(s, e) && !Confirms(s, e, now) ==>
            && (g.shown.snapshot.Some? ==> s.shown.snapshot.Some? && g.shown.stale == s.shown.stale)
            && (g.shown.stale ==> s.shown.stale))
  {
    hide FlightEffect, LeaseEffect, Confirms, Launched, Bumped, Taken, WithoutEphemeral, Aborting;
    OnlyFlightsConfirm(s, e, now);
    if OfFlight(e) { FlightMarks(s, e, now); }
    if OfLease(e) { LeaseKeepsMarks(s, e); }
  }

  lemma OnlyFlightsConfirm(s: Store, e: Event, now: int)
    ensures Confirms(s, e, now) ==> OfFlight(e)
  {}

  ghost predicate Since(events: seq<Timed>, i: nat, restored: bool) {
    i < |events| &&
    if restored
    then Restores(Run(events[..i]), events[i].event)
         && forall k | i < k < |events| :: !Confirms(Run(events[..k]), events[k].event, events[k].now)
    else Confirms(Run(events[..i]), events[i].event, events[i].now)
         && forall k | i < k < |events| :: !Restores(Run(events[..k]), events[k].event)
  }

  lemma SinceGrows(events: seq<Timed>, e: Timed, i: nat, restored: bool)
    requires Since(events, i, restored)
    requires if restored then !Confirms(Run(events), e.event, e.now) else !Restores(Run(events), e.event)
    ensures Since(events + [e], i, restored)
  {
    hide Run, Confirms, Restores;
    var all := events + [e];
    assert forall k | 0 <= k < |events| :: all[..k] == events[..k] && all[k] == events[k];
    assert all[..|events|] == events;
  }

  // A view never shows yesterday's answer as today's: what is marked stale came from the cache and has
  // not been confirmed since, and what is not was answered by the engine after the cache was last used.
  lemma {:induction false} StaleUntilConfirmed(events: seq<Timed>)
    ensures Run(events).shown.stale ==> exists i :: Since(events, i, true)
    ensures Run(events).shown.snapshot.Some? && !Run(events).shown.stale ==> exists i :: Since(events, i, false)
  {
    if events != [] {
      hide Step, Confirms, Restores, Since;
      var front, last := events[..|events| - 1], events[|events| - 1];
      assert events == front + [last];
      StaleUntilConfirmed(front);
      StepMarks(Run(front), last.event, last.now);
      if Restores(Run(front), last.event) {
        SinceNow(front, last, true);
      } else if Confirms(Run(front), last.event, last.now) {
        SinceNow(front, last, false);
      } else {
        if i: nat :| Since(front, i, true) { SinceGrows(front, last, i, true); }
        if i: nat :| Since(front, i, false) { SinceGrows(front, last, i, false); }
      }
    }
  }

  lemma SinceNow(events: seq<Timed>, e: Timed, restored: bool)
    requires if restored then Restores(Run(events), e.event) else Confirms(Run(events), e.event, e.now)
    ensures Since(events + [e], |events|, restored)
  {
    assert (events + [e])[..|events|] == events;
  }

  // ---- Refusals ----

  predicate Recovering(f: Flight) {
    f.phase.Configuring? || f.phase.Independent?
  }

  // Recovering is left and entered by replies alone.
  lemma LaunchKeepsRecovering(s: Store, g: Store, id: nat)
    requires id != s.step && Launches(s, g)
    ensures id in g.flights <==> id in s.flights
    ensures id in s.flights ==>
              g.flights[id].phase == s.flights[id].phase && g.flights[id].readAt == s.flights[id].readAt
  {}

  lemma NewIsReading(s: Store, g: Store)
    requires Launches(s, g) && s.step !in s.flights
    ensures s.step in g.flights ==> g.flights[s.step].phase.Reading?
  {}

  // How a flight comes to recover: its read was refused, or its inventory arrived.
  ghost predicate Enters(s: Store, e: Event, f: Flight, phase: Phase) {
    || f.phase == phase
    || (&& e.SnapshotReply? && e.reply.Failed? && f.phase.Reading?
        && phase == Configuring(e.reply.error, s.step))
    || (&& e.ConfigurationReply? && e.reply.Answer? && f.phase.Configuring?
        && phase == Independent(f.phase.failure, e.reply.snapshot, INDEPENDENT_SLICES * s.loaded,
                                f.phase.askedAt, s.step))
  }

  lemma TurnToRecovery(s: Store, f: Flight, e: Event, now: int)
    requires Recovering(Turned(s, f, TurnOf(s, f, e, now), now))
    ensures var g := Turned(s, f, TurnOf(s, f, e, now), now); f.readAt == g.readAt && Enters(s, e, f, g.phase)
  {
    hide ChangedSlices, Accept, Recovery;
  }

  lemma NonReplyLaunches(s: Store, e: Event, now: int)
    requires !OfFlight(e)
    ensures Launches(s, Step(s, e, now).(step := s.step))
  {
    hide Launches, LeaseEffect, RequestEffect;
    if OfLease(e) {
      LeaseOnlyReleases(s, e);
      FlightsUnlaunched(s, LeaseEffect(s, e));
      LaunchesIgnoreStep(s, LeaseEffect(s, e));
    } else {
      RequestLaunches(s, e, now);
      LaunchesIgnoreStep(s, RequestEffect(s, e, now));
    }
  }

  lemma LaunchesIgnoreStep(s: Store, g: Store)
    requires Launches(s, g)
    ensures forall n: nat, m: nat :: Launches(s, g.(step := n).(step := m))
  {}

  lemma RepliedIs(s: Store, id: nat, e: Event, now: int)
    requires id in s.flights
    ensures var g := Replied(s, id, e, now); var turn := TurnOf(s, s.flights[id], e, now);
      && g.flights == s.flights[id := Turned(s, s.flights[id], turn, now)]
      && g.shown == (if turn.Publish? then turn.shown else s.shown)
  {
    hide TurnOf, Turned;
  }

  lemma SettledIs(s: Store, id: nat)
    requires id in s.flights
    ensures Settled(s, id).flights == s.flights[id := s.flights[id].(phase := Done)]
    ensures Settled(s, id).shown == s.shown
  {}

  lemma ReplyTurns(s: Store, e: Event, now: int, id: nat)
    requires OfFlight(e) && id in s.flights
    ensures var g := Step(s, e, now);
      && id in g.flights && (Looping(g.flights[id]) ==> Looping(s.flights[id]))
      && if e.flight != id then g.flights[id] == s.flights[id] && (e.Settle? ==> g.shown == s.shown)
         else if e.Settle? then g.shown == s.shown && (Looping(s.flights[id]) ==> g.flights[id] == s.flights[id])
         else var turn := TurnOf(s, s.flights[id], e, now);
              g.flights[id] == Turned(s, s.flights[id], turn, now)
              && g.shown == (if turn.Publish? then turn.shown else s.shown)
  {
    hide TurnOf, Turned, Replied, LeaseEffect, RequestEffect, FlightEffect, Settled;
    FlightEffects(s, e, now);
    if e.flight in s.flights {
      RepliedIs(s, e.flight, e, now);
      SettledIs(s, e.flight);
    }
    EndedStays(s, s.flights[id], e, now);
  }

  lemma EndedStays(s: Store, f: Flight, e: Event, now: int)
    ensures Looping(Turned(s, f, TurnOf(s, f, e, now), now)) ==> Looping(f)
  {}

  lemma RecoveryComesFrom(s: Store, e: Event, now: int, id: nat)
    requires s.step !in s.flights
    requires id in Step(s, e, now).flights && Recovering(Step(s, e, now).flights[id])
    ensures id in s.flights && var f, g := s.flights[id], Step(s, e, now).flights[id];
      f.readAt == g.readAt && Enters(s, e, f, g.phase) && (f.phase != g.phase ==> OfFlight(e) && e.flight == id)
  {
    hide Step, Launches, TurnOf, Turned;
    if OfFlight(e) {
      FlightsAreKept(s, e, now);
      ReplyTurns(s, e, now, id);
      if e.flight == id && !e.Settle? { TurnToRecovery(s, s.flights[id], e, now); }
    } else {
      NonReplyLaunches(s, e, now);
      var g := Step(s, e, now).(step := s.step);
      if id == s.step { NewIsReading(s, g); } else { LaunchKeepsRecovering(s, g, id); }
    }
  }

  lemma FlightsAreKept(s: Store, e: Event, now: int)
    requires OfFlight(e)
    ensures Step(s, e, now).flights.Keys == s.flights.Keys
  {
    hide FlightEffect;
    FlightOnlyAdvances(s, e, now);
  }

  // In event `r` the read that flight `id` was making was refused with `error`, and it has been
  // recovering from that ever since.
  ghost predicate RefusedAt(events: seq<Timed>, r: nat, id: nat, error: nat) {
    && r < |events|
    && events[r].event.SnapshotReply? && events[r].event.flight == id
    && events[r].event.reply.Failed? && events[r].event.reply.error == error
    && forall j | r < j <= |events| :: RecoversFrom(Run(events[..j]), id, error)
  }

  ghost predicate RecoversFrom(s: Store, id: nat, error: nat) {
    id in s.flights && Recovering(s.flights[id]) && s.flights[id].phase.failure == error
  }

  lemma RefusedNow(events: seq<Timed>, id: nat, error: nat)
    requires events != [] && var e := events[|events| - 1].event;
             e.SnapshotReply? && e.flight == id && e.reply.Failed? && e.reply.error == error
    requires RecoversFrom(Run(events), id, error)
    ensures RefusedAt(events, |events| - 1, id, error)
  {
    hide Run;
    assert events[..|events|] == events;
  }

  lemma RefusedStill(events: seq<Timed>, e: Timed, r: nat, id: nat, error: nat)
    requires RefusedAt(events, r, id, error) && RecoversFrom(Run(events + [e]), id, error)
    ensures RefusedAt(events + [e], r, id, error)
  {
    hide Run, RecoversFrom;
    var all := events + [e];
    assert forall j | 0 <= j <= |events| :: all[..j] == events[..j];
    assert all[..|all|] == all;
  }

  lemma FlightsAreOld(s: Store, n: nat)
    requires RefreshOk(s, n)
    ensures n !in s.flights
  {}

  // What a recovery carries is the error of the read its flight made last.
  lemma {:induction false} RecoveryCarriesTheRefusal(events: seq<Timed>, id: nat)
    requires id in Run(events).flights && Recovering(Run(events).flights[id])
    ensures var f := Run(events).flights[id];
      exists r :: f.readAt < r && RefusedAt(events, r, id, f.phase.failure)
  {
    hide Step, RefreshOk, LeasesOk, RefusedAt;
    var front, last := events[..|events| - 1], events[|events| - 1];
    var s, f := Run(front), Run(events).flights[id];
    StoreInvariant(front);
    FlightsAreOld(s, s.step);
    RecoveryComesFrom(s, last.event, last.now, id);
    assert events == front + [last];
    if Recovering(s.flights[id]) {
      RecoveryCarriesTheRefusal(front, id);
      var r :| f.readAt < r && RefusedAt(front, r, id, f.phase.failure);
      RefusedStill(front, last, r, id, f.phase.failure);
    } else {
      FlightsRemember(front, id);
      RefusedNow(events, id, f.phase.failure);
    }
  }

  // What a recovery remembers of the reads it makes: each was asked for in the turn that answered the one
  // before it.
  ghost predicate Dated(events: seq<Timed>, id: nat, f: Flight)
    requires Recovering(f)
  {
    && f.readAt < f.phase.askedAt < |events|
    && var at := f.phase.askedAt;
       var before, after, e := Run(events[..at]), Run(events[..at + 1]), events[at];
       && id in before.flights && before.flights[id].readAt == f.readAt
       && id in after.flights && after.flights[id].phase == f.phase
       && (f.phase.Configuring? ==> before.flights[id].phase.Reading?)
       && (f.phase.Independent? ==>
             && before.flights[id].phase == Configuring(f.phase.failure, f.phase.configuredAt)
             && e.event == ConfigurationReply(id, Answer(f.phase.configuration))
             && f.phase.leased == {Comprehension, Sgos, Diagnostics} * before.loaded)
  }

  lemma DatedNow(events: seq<Timed>, id: nat)
    requires events != [] && id in Run(events).flights && Recovering(Run(events).flights[id])
    requires var s := Run(events[..|events| - 1]);
             && id in s.flights && s.step == |events| - 1
             && s.flights[id].readAt == Run(events).flights[id].readAt < s.step
             && s.flights[id].phase != Run(events).flights[id].phase
    requires var s, e := Run(events[..|events| - 1]), events[|events| - 1].event;
             OfFlight(e) && e.flight == id && Enters(s, e, s.flights[id], Run(events).flights[id].phase)
    ensures Dated(events, id, Run(events).flights[id])
  {
    hide Run;
    assert events[..|events|] == events;
  }

  lemma {:induction false} RecoveryIsDated(events: seq<Timed>, id: nat)
    requires id in Run(events).flights && Recovering(Run(events).flights[id])
    ensures Dated(events, id, Run(events).flights[id])
  {
    hide Step, RefreshOk, LeasesOk, Enters;
    var front, last := events[..|events| - 1], events[|events| - 1];
    var s, f := Run(front), Run(events).flights[id];
    StoreInvariant(front);
    FlightsAreOld(s, s.step);
    RecoveryComesFrom(s, last.event, last.now, id);
    if s.flights[id].phase == f.phase {
      RecoveryIsDated(front, id);
      assert front[..f.phase.askedAt] == events[..f.phase.askedAt];
      assert front[..f.phase.askedAt + 1] == events[..f.phase.askedAt + 1];
    } else {
      FlightsRemember(front, id);
      DatedNow(events, id);
    }
  }

  // The reply ends the recovery without a word about the refusal: the configuration read was itself
  // superseded, or it failed when the flight had been aborted or the store disposed.
  predicate CutShort(s: Store, f: Flight, e: Event) {
    e.ConfigurationReply? && (e.reply.Superseded? || f.aborted || s.disposed)
  }

  lemma TurnEndsRecovery(s: Store, f: Flight, e: Event, now: int)
    requires Recovering(f) && !Recovering(Turned(s, f, TurnOf(s, f, e, now), now))
    ensures var turn := TurnOf(s, f, e, now);
      && (e.ConfigurationReply? || (e.IndependentReply? && f.phase.Independent?))
      && if f.generation == s.generation && !CutShort(s, f, e)
         then turn.Publish? && turn.shown.error == Some(f.phase.failure) && !turn.shown.loading
              && turn.shown.snapshot == (if e.IndependentReply?
                                         then Some(Recovery(f.phase.configuration, f.phase.leased, e.extra))
                                         else s.shown.snapshot)
         else turn.Publish? ==> turn.shown.error == s.shown.error && turn.shown.snapshot == s.shown.snapshot
  {
    hide ChangedSlices, Recovery;
  }

  lemma RecoveryEnds(s: Store, e: Event, now: int, id: nat)
    requires id in s.flights && id != s.step && Recovering(s.flights[id])
    requires id in Step(s, e, now).flights && !Recovering(Step(s, e, now).flights[id])
    ensures OfFlight(e) && e.flight == id && (e.IndependentReply? ==> s.flights[id].phase.Independent?)
    ensures var g, f := Step(s, e, now), s.flights[id];
      if f.generation == s.generation && !CutShort(s, f, e)
      then g.shown.error == Some(f.phase.failure) && !g.shown.loading
           && g.shown.snapshot == (if e.IndependentReply?
                                   then Some(Recovery(f.phase.configuration, f.phase.leased, e.extra))
                                   else s.shown.snapshot)
      else g.shown.error == s.shown.error && g.shown.snapshot == s.shown.snapshot
  {
    hide Step, Launches, TurnOf, Turned, Recovery;
    if OfFlight(e) {
      ReplyTurns(s, e, now, id);
      if e.flight == id && !e.Settle? { TurnEndsRecovery(s, s.flights[id], e, now); }
    } else {
      NonReplyLaunches(s, e, now);
      LaunchKeepsRecovering(s, Step(s, e, now).(step := s.step), id);
    }
  }

  // When a recovery ends, the error of the read that was refused is shown, over what the recovery brought
  // or over what was shown before, if and only if no request superseded the iteration and the reply does
  // not cut the recovery short. Otherwise neither error nor snapshot changes.
  lemma RefusalIsShown(events: seq<Timed>, k: nat, id: nat)
    requires k < |events|
    requires id in Run(events[..k]).flights && Recovering(Run(events[..k]).flights[id])
    requires id in Run(events[..k + 1]).flights && !Recovering(Run(events[..k + 1]).flights[id])
    ensures var s, g, e := Run(events[..k]), Run(events[..k + 1]), events[k].event;
            var f := s.flights[id];
      && (exists r :: f.readAt < r && RefusedAt(events[..k], r, id, f.phase.failure))
      && (e.IndependentReply? ==> f.phase.Independent?)
      && if (forall j | f.begunAt < j < k :: !Supersedes(Run(events[..j]), events[j].event)) && !CutShort(s, f, e)
         then g.shown.error == Some(f.phase.failure) && !g.shown.loading
              && g.shown.snapshot == (if e.IndependentReply?
                                      then Some(Recovery(f.phase.configuration, f.phase.leased, e.extra))
                                      else s.shown.snapshot)
         else g.shown.error == s.shown.error && g.shown.snapshot == s.shown.snapshot
  {
    hide Run, Step, Supersedes, RefusedAt, Recovery, RefreshOk, LeasesOk;
    var before := events[..k];
    RunGoesOn(events, k);
    RecoveryCarriesTheRefusal(before, id);
    StoreInvariant(before);
    FlightsAreOld(Run(before), k);
    RecoveryEnds(Run(before), events[k].event, events[k].now, id);
    FlightsRemember(before, id);
    var at := Run(before).flights[id].begunAt;
    GenerationGrows(before, at + 1);
    assert before[..at + 1] == events[..at + 1];
    assert forall j | 0 <= j < k :: before[..j] == events[..j] && before[j] == events[j];
  }

  lemma RunGoesOn(events: seq<Timed>, k: nat)
    requires k < |events|
    ensures Run(events[..k + 1]) == Step(Run(events[..k]), events[k].event, events[k].now)
  {
    assert events[..k + 1][..k] == events[..k];
  }

  // ---- Follow-up reads ----

  // A flight that owes a read it has not begun, until it is aborted, begins it or has ended.
  ghost predicate Owes(f: Flight, after: Flight, generation: nat, at: nat) {
    && (after.begunAt == f.begunAt || after.begunAt == at)
    && (f.aborted ==> after.aborted)
    && (!Looping(f) ==> !Looping(after) && after.begunAt == f.begunAt)
    && (Looping(f) && f.generation < generation && !f.aborted ==>
          after.begunAt == at || (Looping(after) && after.generation == f.generation))
  }

  lemma TurnOwes(s: Store, id: nat, e: Event, now: int)
    requires id in s.flights && (e.SnapshotReply? || e.Wake? || e.ConfigurationReply? || e.IndependentReply?)
    ensures !s.disposed ==> Owes(s.flights[id], Replied(s, id, e, now).flights[id], s.generation, s.step)
    ensures !Looping(s.flights[id]) ==> Replied(s, id, e, now).flights[id] == s.flights[id]
  {}

  ghost predicate Owed(s: Store, g: Store, id: nat)
    requires id in s.flights
  {
    && id in g.flights && (s.disposed ==> g.disposed)
    && (!s.disposed ==> Owes(s.flights[id], g.flights[id], s.generation, s.step))
    && (!Looping(s.flights[id]) ==> !Looping(g.flights[id]) && g.flights[id].begunAt == s.flights[id].begunAt)
  }

  lemma FlightOwes(s: Store, e: Event, now: int, id: nat)
    requires id in s.flights && OfFlight(e)
    ensures Owed(s, FlightEffect(s, e, now), id)
  {
    hide TurnOf, Turned, Replied;
    if e.flight in s.flights && !e.Settle? {
      TurnOwes(s, e.flight, e, now);
      RepliedKeepsOthers(s, e.flight, e, now);
    }
  }

  lemma LaunchOwes(s: Store, g: Store, id: nat)
    requires id in s.flights && id != s.step && Launches(s, g) && (s.disposed ==> g.disposed)
    ensures Owed(s, g, id)
  {}

  lemma StepOwes(s: Store, e: Event, now: int, id: nat)
    requires RefreshOk(s, s.step) && id in s.flights
    ensures Owed(s, Step(s, e, now), id)
  {
    hide RefreshOk, LeaseEffect, RequestEffect, FlightEffect, Owes, Launches, Aborting;
    FlightIsOk(s, id, s.step);
    if OfFlight(e) {
      FlightOwes(s, e, now, id);
    } else if OfLease(e) {
      LeaseOnlyReleases(s, e);
      FlightsUnlaunched(s, LeaseEffect(s, e));
      LaunchOwes(s, LeaseEffect(s, e), id);
    } else {
      RequestLaunches(s, e, now);
      RequestKeepsDisposed(s, e, now);
      LaunchOwes(s, RequestEffect(s, e, now), id);
    }
  }

  lemma FlightsUnlaunched(s: Store, g: Store)
    requires g.flights == s.flights || g.flights == Aborting(s.flights, s.inFlight)
    ensures Launches(s, g)
  {}

  lemma RequestKeepsDisposed(s: Store, e: Event, now: int)
    ensures RequestEffect(s, e, now).disposed == s.disposed
  {}

  predicate Asking(e: Event) {
    e.Refresh? || e.Ensure? || e.Acquire?
  }

  // The request fell between the loop's last check and the `finally` that makes way for the next one.
  ghost predicate InSettleGap(s: Store, id: nat) {
    id in s.flights && !Looping(s.flights[id])
  }

  // Where flight `id` stands in `s` when a request waits for it that was made in `at`, which left `after`.
  ghost predicate Answering(at: Store, after: Store, s: Store, id: nat) {
    id in s.flights &&
    var f := s.flights[id];
    || f.aborted || s.disposed
    || (if InSettleGap(at, id) then !Looping(f) && f.begunAt < at.step
        else f.begunAt >= at.step || (Looping(f) && f.generation < after.generation))
  }

  ghost predicate Joins(s: Store, g: Store) {
    && s.generation < g.generation && g.inFlight.Some?
    && (if s.inFlight.Some? then g.inFlight == s.inFlight && g.flights == s.flights
        else g.inFlight == Some(s.step) && s.step in g.flights && g.flights[s.step].begunAt == s.step)
  }

  lemma RequestJoins(s: Store, e: Event, now: int)
    requires Asking(e) && Supersedes(s, e)
    ensures Joins(s, RequestEffect(s, e, now)) && !s.disposed
  {}

  lemma RequestAnswered(s: Store, e: Event, now: int, id: nat)
    requires RefreshOk(s, s.step) && Asking(e) && Supersedes(s, e) && Step(s, e, now).inFlight == Some(id)
    ensures Answering(s, Step(s, e, now), Step(s, e, now), id)
  {
    hide Supersedes, RequestEffect, FlightEffect, LeaseEffect, RefreshOk;
    RequestJoins(s, e, now);
    CurrentFlightIsOk(s, s.step);
    if id in s.flights { FlightIsOk(s, id, s.step); }
  }

  lemma CurrentFlightIsOk(s: Store, n: nat)
    requires RefreshOk(s, n)
    ensures s.inFlight.Some? ==> s.inFlight.value in s.flights
  {}

  lemma StepAnswers(at: Store, after: Store, s: Store, g: Store, id: nat)
    requires Answering(at, after, s, id) && Owed(s, g, id) && at.step <= s.step && after.generation <= s.generation
    ensures Answering(at, after, g, id)
  {}

  lemma {:induction false} StaysAnswering(events: seq<Timed>, q: nat, id: nat)
    requires q < |events| && Asking(events[q].event) && Supersedes(Run(events[..q]), events[q].event)
    requires Run(events[..q + 1]).inFlight == Some(id)
    ensures Answering(Run(events[..q]), Run(events[..q + 1]), Run(events), id)
  {
    hide Step, Supersedes, RefreshOk, LeasesOk, Answering, Owed;
    var front, last := events[..|events| - 1], events[|events| - 1];
    StoreInvariant(front);
    StoreInvariant(events[..q]);
    if q + 1 == |events| {
      assert events[..q + 1] == events;
      RequestAnswered(Run(front), last.event, last.now, id);
    } else {
      assert front[..q] == events[..q] && front[..q + 1] == events[..q + 1];
      StaysAnswering(front, q, id);
      FlightKnown(Run(events[..q]), Run(events[..q + 1]), Run(front), id);
      StepOwes(Run(front), last.event, last.now, id);
      GenerationGrows(front, q + 1);
      StepAnswers(Run(events[..q]), Run(events[..q + 1]), Run(front), Run(events), id);
    }
  }

  lemma FlightKnown(at: Store, after: Store, s: Store, id: nat)
    requires Answering(at, after, s, id)
    ensures id in s.flights
  {}

  // When the flight a request waits for has settled, it has read since the request: unless it was cut
  // short, its last iteration began at or after the request exactly if the request did not fall into
  // the settle gap. That read asked for what was loaded when it began.
  lemma RequestsAreFollowedUp(events: seq<Timed>, q: nat, id: nat)
    requires q < |events| && Asking(events[q].event) && Supersedes(Run(events[..q]), events[q].event)
    requires Run(events[..q + 1]).inFlight == Some(id)
    requires id in Run(events).flights && !Looping(Run(events).flights[id])
    ensures var s, f := Run(events), Run(events).flights[id];
      && f.begunAt <= f.readAt < |events| && f.slices == Run(events[..f.readAt + 1]).loaded
      && (f.aborted || s.disposed || (q <= f.begunAt <==> !InSettleGap(Run(events[..q]), id)))
  {
    hide Run, Step, RefreshOk, LeasesOk, Supersedes;
    StoreInvariant(events[..q]);
    StaysAnswering(events, q, id);
    FlightsRemember(events, id);
  }

  // ---- How often the loop reads ----

  function Superseding(events: seq<Timed>): nat {
    if events == [] then 0
    else
      var front, last := events[..|events| - 1], events[|events| - 1];
      Superseding(front) + (if Supersedes(Run(front), last.event) then 1 else 0)
  }

  lemma {:induction false} GenerationCounts(events: seq<Timed>)
    ensures Run(events).generation == Superseding(events)
  {
    hide Step, Supersedes;
    if events != [] {
      GenerationCounts(events[..|events| - 1]);
      SupersedingBumps(Run(events[..|events| - 1]), events[|events| - 1].event, events[|events| - 1].now);
    }
  }

  // One iteration, and at most one more for each superseding request since the loop started.
  lemma ReadsAreBounded(events: seq<Timed>, id: nat)
    requires id in Run(events).flights
    ensures id < |events|
    ensures Run(events).flights[id].iterations <= 1 + Superseding(events) - Superseding(events[..id + 1])
    ensures Run(events).flights[id].retry.attempt + 1 <= 4
  {
    hide Run, Step, RefreshOk, LeasesOk;
    StoreInvariant(events);
    FlightIsOk(Run(events), id, |events|);
    FlightsRemember(events, id);
    GenerationCounts(events);
    GenerationCounts(events[..id + 1]);
  }

  function RunFrom(s: Store, events: seq<Timed>): Store {
    if events == [] then s
    else Step(RunFrom(s, events[..|events| - 1]), events[|events| - 1].event, events[|events| - 1].now)
  }

  lemma RequestLeavesFlight(s: Store, e: Event, now: int)
    requires Asking(e) && s.inFlight.Some? && !s.disposed
    ensures var g := Step(s, e, now);
      && g.flights == s.flights && g.inFlight == s.inFlight && !g.disposed
      && s.generation <= g.generation && (Supersedes(s, e) ==> s.generation < g.generation)
  {
    SupersedingBumps(s, e, now);
    hide Taken, FlightEffect, LeaseEffect;
  }

  lemma BurstUnfolds(s: Store, requests: seq<Timed>)
    ensures requests == [] ==> RunFrom(s, requests) == s
    ensures requests != [] ==>
              var front, last := requests[..|requests| - 1], requests[|requests| - 1];
              RunFrom(s, requests) == Step(RunFrom(s, front), last.event, last.now)
  {}

  lemma {:induction false} BurstLeavesFlight(s: Store, requests: seq<Timed>)
    requires s.inFlight.Some? && !s.disposed && forall i | 0 <= i < |requests| :: Asking(requests[i].event)
    ensures var g := RunFrom(s, requests);
      && g.flights == s.flights && g.inFlight == s.inFlight && !g.disposed && s.generation <= g.generation
      && forall i | 0 <= i < |requests| && Supersedes(RunFrom(s, requests[..i]), requests[i].event) ::
           s.generation < g.generation
  {
    hide Step, Supersedes, RunFrom, Asking;
    BurstUnfolds(s, requests);
    if requests != [] {
      var front, last := requests[..|requests| - 1], requests[|requests| - 1];
      assert Asking(last.event) && forall i | 0 <= i < |front| :: Asking(front[i].event);
      BurstLeavesFlight(s, front);
      RequestLeavesFlight(RunFrom(s, front), last.event, last.now);
      assert forall i | 0 <= i < |front| :: front[..i] == requests[..i] && front[i] == requests[i];
    }
  }

  lemma CurrentAnswerShows(s: Store, id: nat, snapshot: Snapshot, now: int)
    requires id in s.flights && s.flights[id].phase.Reading? && !snapshot.notModified
    ensures var f, g := s.flights[id], Step(s, SnapshotReply(id, Answer(snapshot)), now);
      && id in g.flights && g.flights.Keys == s.flights.Keys && g.generation == s.generation
      && (f.generation == s.generation ==> g.shown.snapshot == Some(snapshot) && g.flights[id].phase.Settling?)
      && (f.generation != s.generation && !f.aborted && !s.disposed ==>
            && g.shown == s.shown && g.flights[id].phase.Reading? && g.flights[id].generation == s.generation
            && g.flights[id].iterations == f.iterations + 1)
  {}

  // However many requests arrive during one read, its answer is dropped and one more read answers
  // them all.
  lemma BurstCostsOneFollowUp(s: Store, id: nat, requests: seq<Timed>, i: nat, late: Snapshot, next: Snapshot, now: int)
    requires s.inFlight == Some(id) && id in s.flights && s.flights[id].phase.Reading?
    requires s.flights[id].generation == s.generation && !s.flights[id].aborted && !s.disposed
    requires forall k | 0 <= k < |requests| :: Asking(requests[k].event)
    requires i < |requests| && Supersedes(RunFrom(s, requests[..i]), requests[i].event)
    requires !late.notModified && !next.notModified
    ensures var asked := RunFrom(s, requests);
            var again := Step(asked, SnapshotReply(id, Answer(late)), now);
            var done := Step(again, SnapshotReply(id, Answer(next)), now);
      && id in again.flights && id in done.flights
      && again.shown == asked.shown && again.flights[id].iterations == s.flights[id].iterations + 1
      && done.shown.snapshot == Some(next) && done.flights[id].phase.Settling?
  {
    BurstLeavesFlight(s, requests);
    var asked := RunFrom(s, requests);
    CurrentAnswerShows(asked, id, late, now);
    CurrentAnswerShows(Step(asked, SnapshotReply(id, Answer(late)), now), id, next, now);
    hide Step, RunFrom, Supersedes;
  }

  // ---- The retry budget ----

  predicate Monotone(events: seq<Timed>) {
    forall i, j | 0 <= i < j < |events| :: events[i].now <= events[j].now
  }

  ghost predicate OnBudget(f: Flight, clock: int) {
    && WithinBudget(f.retry, f.phase.Waiting?)
    && (!f.aborted && !f.phase.Waiting? ==> f.retry.wakeAt <= clock)
  }

  lemma TurnOnBudget(s: Store, f: Flight, e: Event, clock: int, now: int)
    requires OnBudget(f, clock) && clock <= now
    ensures OnBudget(Turned(s, f, TurnOf(s, f, e, now), now), now)
  {}

  ghost predicate AllOnBudget(flights: map<nat, Flight>, clock: int) {
    forall id | id in flights :: OnBudget(flights[id], clock)
  }

  lemma AbortingOnBudget(flights: map<nat, Flight>, inFlight: Option<nat>, clock: int, now: int)
    requires AllOnBudget(flights, clock) && clock <= now
    ensures AllOnBudget(flights, now) && AllOnBudget(Aborting(flights, inFlight), now)
  {}

  lemma RefreshOnBudget(s: Store, changed: bool, clock: int, now: int)
    requires AllOnBudget(s.flights, clock) && clock <= now
    ensures AllOnBudget(Refreshed(s, changed, now).flights, now)
  {}

  lemma EffectOnBudget(s: Store, e: Event, clock: int, now: int)
    requires AllOnBudget(s.flights, clock) && clock <= now
    ensures AllOnBudget(Effect(s, e, now).flights, now)
  {
    hide AllOnBudget, Refreshed, Replied, Aborting, Taken, WithoutEphemeral, LeaseEffect;
    AbortingOnBudget(s.flights, s.inFlight, clock, now);
    if OfFlight(e) {
      if e.flight in s.flights {
        RepliedOnBudget(s, e.flight, e, clock, now);
        if s.flights[e.flight].phase.Settling? { EndedOnBudget(s.flights, e.flight, clock, now); }
      }
    } else if OfLease(e) {
      LeaseOnlyReleases(s, e);
    } else {
      match e
      case Refresh(changed) => RefreshOnBudget(s, changed, clock, now);
      case Ensure(slices) => RefreshOnBudget(Loading(s, slices), Adds(s, slices), clock, now);
      case Acquire(slices, timed) => RefreshOnBudget(Loading(s, slices), Adds(s, slices), clock, now);
      case Prime(cached) =>
      case Move(cached) =>
    }
  }

  lemma EndedOnBudget(flights: map<nat, Flight>, id: nat, clock: int, now: int)
    requires AllOnBudget(flights, clock) && clock <= now && id in flights && !flights[id].phase.Waiting?
    ensures AllOnBudget(flights[id := flights[id].(phase := Done)], now)
  {}

  lemma RepliedOnBudget(s: Store, id: nat, e: Event, clock: int, now: int)
    requires id in s.flights && AllOnBudget(s.flights, clock) && clock <= now
    ensures AllOnBudget(Replied(s, id, e, now).flights, now)
  {
    TurnOnBudget(s, s.flights[id], e, clock, now);
    hide TurnOf, Turned, WithinBudget;
  }

  // On a clock that never runs backwards, with timers that never fire early, no iteration of any loop
  // makes more than four attempts or asks to sleep longer than 3.9 seconds, however long its reads take,
  // and no wait reaches beyond 3.9 seconds after the iteration began: slow reads use the budget up.
  lemma {:induction false} RetriesStayOnBudget(events: seq<Timed>, id: nat)
    requires Monotone(events) && id in Run(events).flights
    ensures Run(events).flights[id].retry.slept <= RETRY_BUDGET_MS
    ensures Run(events).flights[id].retry.attempt + 1 <= 4
    ensures var retry := Run(events).flights[id].retry;
      0 < retry.wait ==> retry.wakeAt <= retry.startedAt + RETRY_BUDGET_MS
  {
    hide Step;
    RunOnBudget(events);
    WithinIsTheBudget(Run(events).flights[id].retry, Run(events).flights[id].phase.Waiting?);
  }

  lemma {:induction false} RunOnBudget(events: seq<Timed>)
    requires Monotone(events)
    ensures AllOnBudget(Run(events).flights, if events == [] then 0 else events[|events| - 1].now)
  {
    hide Effect, OnBudget;
    if events != [] {
      var front, last := events[..|events| - 1], events[|events| - 1];
      RunOnBudget(front);
      if front == [] {
        assert Run(front).flights == map[];
        EffectOnBudget(Run(front), last.event, last.now, last.now);
      } else {
        EffectOnBudget(Run(front), last.event, front[|front| - 1].now, last.now);
      }
    }
  }

  // ---- Leases ----

  // Through acquisition, renewal, expiry, repeated disposal and the store's own disposal, a slice's
  // count is the number of leases that hold it or are being acquired, and what is counted is loaded.
  lemma LeaseConservation(events: seq<Timed>, x: Slice)
    ensures var s := Run(events);
      && CountOf(s.counts, x) == |Holders(s.leases, x)|
      && (CountOf(s.counts, x) > 0 || x in CORE_SNAPSHOT_SLICES ==> x in s.loaded)
      && forall l :: l in s.disposers <==> l in s.leases && s.leases[l].holding.Held?
  {
    hide Run, RefreshOk;
    StoreInvariant(events);
  }

  // Every acquisition under way waits for nothing, or for a flight that exists and will settle it.
  ghost predicate AwaitsFlights(s: Store) {
    forall l | l in s.leases && s.leases[l].holding.Pending? && s.leases[l].holding.flight.Some? ::
      s.leases[l].holding.flight.value in s.flights
  }

  lemma RequestAwaits(s: Store, e: Event, now: int)
    requires RefreshOk(s, s.step) && AwaitsFlights(s) && !OfFlight(e) && !OfLease(e)
    ensures AwaitsFlights(RequestEffect(s, e, now))
  {
    CurrentFlightIsOk(s, s.step);
    RequestLaunches(s, e, now);
    hide RefreshOk, Launches, NewFlight, Taken, WithoutEphemeral, Bumped;
  }

  lemma DisposalAwaits(s: Store, order: seq<nat>, l: nat)
    ensures var g := AllDisposed(s, order);
      l in g.leases && g.leases[l].holding.Pending? ==> l in s.leases && g.leases[l] == s.leases[l]
  {
    DisposedOneByOne(s, order, l);
  }

  lemma LeaseAwaits(s: Store, e: Event)
    requires AwaitsFlights(s) && OfLease(e)
    ensures AwaitsFlights(LeaseEffect(s, e))
  {
    hide Freed, PayloadsOf, WithoutPayloads, WorkspaceStores.Dropped, Remove, AllDisposed;
    LeaseOnlyReleases(s, e);
    if e.DisposeStore? {
      var closing := s.(disposed := true, flights := Aborting(s.flights, s.inFlight));
      forall l ensures l in StoreDisposed(s).leases && StoreDisposed(s).leases[l].holding.Pending? ==>
                       l in s.leases && StoreDisposed(s).leases[l] == s.leases[l]
      {
        DisposalAwaits(closing, s.disposers, l);
      }
    }
  }

  lemma {:induction false} AcquisitionsAwaitFlights(events: seq<Timed>)
    ensures AwaitsFlights(Run(events))
  {
    hide FlightEffect, LeaseEffect, RequestEffect, RefreshOk, LeasesOk;
    if events != [] {
      var front, last := events[..|events| - 1], events[|events| - 1];
      AcquisitionsAwaitFlights(front);
      StoreInvariant(front);
      if OfFlight(last.event) {
        FlightOnlyAdvances(Run(front), last.event, last.now);
        FlightLeavesLeases(Run(front), last.event, last.now);
      } else if OfLease(last.event) {
        LeaseAwaits(Run(front), last.event);
      } else {
        RequestAwaits(Run(front), last.event, last.now);
      }
    }
  }

  lemma FlightLeavesLeases(s: Store, e: Event, now: int)
    requires OfFlight(e)
    ensures FlightEffect(s, e, now).leases == s.leases
  {
    hide TurnOf, Turned;
  }

  // The last holder of a dedicated slice takes everything about it along: the slice, its payload, its
  // listing, its digest, and the aggregate revision that covered it. Anyone else takes nothing.
  lemma FinalReleaseLeavesNoTrace(s: Store, l: nat, x: Slice, n: nat)
    requires LeasesOk(s, n) && l in s.leases && s.leases[l].holding.Held?
    requires x in s.leases[l].slices && x in DEDICATED_SLICES && s.shown.snapshot.Some?
    requires x in s.shown.snapshot.value.payload
    ensures var g := LeaseDisposed(s, l);
      && g.shown.snapshot.Some?
      && var after := g.shown.snapshot.value;
         if Holders(s.leases, x) == {l}
         then x !in g.loaded && x !in after.payload && x !in Digests(after) && x !in Listed(after)
              && Subject(after) == None
         else x in g.loaded && x in after.payload && after.payload[x] == s.shown.snapshot.value.payload[x]
  {
    hide Remove, Dropped, Without, CountsOk;
    assert l in Holders(s.leases, x);
    assert CountOf(s.counts, x) == |Holders(s.leases, x)| by { CountIs(s.counts, s.leases, x); }
    OneHolder(Holders(s.leases, x), l);
    WithoutLeavesNoTrace(s.shown.snapshot.value, PayloadsOf(s.shown, Freed(s.counts, s.leases[l].slices)), x);
  }

  lemma CountIs(counts: map<Slice, nat>, leases: map<nat, Lease>, x: Slice)
    requires CountsOk(counts, leases)
    ensures CountOf(counts, x) == |Holders(leases, x)| && (x in counts <==> CountOf(counts, x) > 0)
  {}

  lemma OneHolder(holders: set<nat>, l: nat)
    requires l in holders
    ensures |holders| <= 1 <==> holders == {l}
  {
    assert |holders - {l}| == |holders| - 1;
    if |holders| <= 1 { assert holders - {l} == {}; }
  }

  lemma SecondDisposalDoesNothing(s: Store, l: nat)
    ensures LeaseDisposed(LeaseDisposed(s, l), l) == LeaseDisposed(s, l)
  {}

  lemma {:induction false} DisposedOneByOne(s: Store, order: seq<nat>, l: nat)
    ensures var g := AllDisposed(s, order);
      && (l in g.leases <==> l in s.leases)
      && (l in s.leases && l !in order ==> g.leases[l] == s.leases[l])
      && (l in s.leases && l in order ==> !g.leases[l].holding.Held?)
      && (l in s.leases ==>
            || g.leases[l] == s.leases[l]
            || (s.leases[l].holding.Held? && g.leases[l].holding.Returned?))
  {
    if order != [] {
      DisposedOneByOne(s, order[..|order| - 1], l);
      assert order == order[..|order| - 1] + [order[|order| - 1]];
      hide Dropped, Freed, PayloadsOf, WithoutPayloads, Remove;
    }
  }

  // A disposed store holds nothing any more but what was still being acquired.
  lemma DisposalReleasesEverything(s: Store, l: nat)
    requires LeasesOk(s, s.step) && l in s.leases
    ensures var g := StoreDisposed(s);
      && LeasesOk(g, s.step) && g.disposers == [] && l in g.leases && !g.leases[l].holding.Held?
      && (s.leases[l].holding.Pending? ==> g.leases[l] == s.leases[l])
  {
    hide LeasesOk, AllDisposed, Aborting;
    var closing := s.(disposed := true, flights := Aborting(s.flights, s.inFlight));
    DisposingKeepsLeases(s);
    DisposedOneByOne(closing, s.disposers, l);
    LiveAreListed(s, l, s.step);
    forall k | k in StoreDisposed(s).disposers ensures false {
      LiveAreListed(s, k, s.step);
      LiveAreListed(StoreDisposed(s), k, s.step);
      DisposedOneByOne(closing, s.disposers, k);
    }
    NoElements(StoreDisposed(s).disposers);
  }

  lemma NoElements(order: seq<nat>)
    ensures order == [] || order[0] in order
  {}

  lemma LiveAreListed(s: Store, l: nat, n: nat)
    requires LeasesOk(s, n)
    ensures l in s.disposers <==> l in s.leases && s.leases[l].holding.Held?
  {}

  // ---- Where the promises end ----

  lemma RunAppends(events: seq<Timed>, e: Event)
    ensures Run(events + [Timed(e, 0)]) == Step(Run(events), e, 0)
  {}

  const CORE_ANSWER := Snapshot(map[Repository := 1], Some([Repository]),
                                Some(Revision(Some(7), Some(map[Repository := 1]), 0)), false)
  const REQUESTED: seq<Timed> := [Timed(Refresh(false), 0)]
  const ANSWERED: seq<Timed> := REQUESTED + [Timed(SnapshotReply(0, Answer(CORE_ANSWER)), 0)]

  lemma FirstRead(s: Store, e: Event)
    requires s == EMPTY_STORE && e == Refresh(false)
    ensures var g := Step(s, e, 0);
      && g.inFlight == Some(0) && g.flights.Keys == {0} && !g.disposed && g.step == 1 && g.generation == 1
      && g.flights[0].phase.Reading? && g.flights[0].generation == 1 && g.flights[0].begunAt == 0
      && !g.flights[0].aborted && g.shown == Shown(None, None, true, false, 0, 0, 0)
      && g.loaded == CORE_SNAPSHOT_SLICES == g.flights[0].slices
  {}

  // The settle gap is reachable: the answer was published, and the `finally` has not run.
  lemma SettleGapIsReachable()
    ensures var s := Run(ANSWERED);
      && s.inFlight == Some(0) && InSettleGap(s, 0) && s.flights[0].phase.Settling? && !s.disposed && s.step == 2
      && s.flights[0].begunAt == 0 && !s.flights[0].aborted && s.loaded == CORE_SNAPSHOT_SLICES == s.flights[0].slices
  {
    RunAppends([], Refresh(false));
    RunAppends(REQUESTED, SnapshotReply(0, Answer(CORE_ANSWER)));
    assert REQUESTED == [] + [Timed(Refresh(false), 0)];
    hide Step;
    FirstRead(Run([]), Refresh(false));
    CurrentAnswerShows(Run(REQUESTED), 0, CORE_ANSWER, 0);
    AnswerKeepsFlight(Run(REQUESTED), 0, CORE_ANSWER);
  }

  lemma AnswerKeepsFlight(s: Store, id: nat, snapshot: Snapshot)
    requires id in s.flights && s.flights[id].phase.Reading? && s.flights[id].generation == s.generation
    ensures var g := Step(s, SnapshotReply(id, Answer(snapshot)), 0);
      && g.inFlight == s.inFlight && g.disposed == s.disposed && g.step == s.step + 1
      && id in g.flights && g.flights[id].begunAt == s.flights[id].begunAt && g.loaded == s.loaded
      && g.flights[id].slices == s.flights[id].slices && g.flights[id].aborted == s.flights[id].aborted
  {}

  lemma Refused(s: Store, id: nat, error: nat)
    requires Current(s, id) && s.flights[id].phase.Reading? && !s.flights[id].aborted && !s.disposed
    ensures var g := Step(s, SnapshotReply(id, Failed(error, false)), 0);
      && id in g.flights && g.flights[id].phase == Configuring(error, s.step) && !g.flights[id].aborted
      && g.flights[id].generation == g.generation && g.shown == s.shown && g.disposed == s.disposed
  {}

  lemma CutShortStaysSilent(s: Store, id: nat)
    requires id in s.flights && s.flights[id].phase.Configuring? && s.flights[id].generation == s.generation
    requires !s.flights[id].aborted && !s.disposed
    ensures var g := Step(s, ConfigurationReply(id, Superseded), 0);
      && id in g.flights && g.flights[id].phase.Settling? && g.disposed == s.disposed
      && g.shown == s.shown.(loading := false)
  {}

  // A refusal can end unshown: the configuration read of its recovery is superseded in the queue.
  lemma SupersededRecoveryHidesTheRefusal(error: nat)
    ensures var s := Run(REQUESTED + [Timed(SnapshotReply(0, Failed(error, false)), 0)]
                                   + [Timed(ConfigurationReply(0, Superseded), 0)]);
      && s.shown.error == None && s.shown.snapshot == None && !s.shown.loading && !s.disposed
      && 0 in s.flights && s.flights[0].phase.Settling?
  {
    RunAppends([], Refresh(false));
    assert REQUESTED == [] + [Timed(Refresh(false), 0)];
    RunAppends(REQUESTED, SnapshotReply(0, Failed(error, false)));
    RunAppends(REQUESTED + [Timed(SnapshotReply(0, Failed(error, false)), 0)], ConfigurationReply(0, Superseded));
    hide Step, Run;
    FirstRead(EMPTY_STORE, Refresh(false));
    Refused(Run(REQUESTED), 0, error);
    CutShortStaysSilent(Step(Run(REQUESTED), SnapshotReply(0, Failed(error, false)), 0), 0);
  }

  // Every change observed there waits for a flight that has already read, and starts no other: the
  // exception in RequestsAreFollowedUp is needed.
  lemma ChangeInTheGapIsLost(s: Store, id: nat, e: Event, now: int)
    requires RefreshOk(s, s.step) && s.inFlight == Some(id) && InSettleGap(s, id) && Asking(e) && Supersedes(s, e)
    ensures var after := Step(s, e, now); var settled := Step(after, Settle(id), now);
      && after.inFlight == Some(id) && settled.inFlight == None
      && settled.flights == s.flights[id := s.flights[id].(phase := Done)]
  {
    CurrentFlightSettles(s, id, s.step);
    RequestJoins(s, e, now);
    hide RefreshOk, RequestEffect, Supersedes, LeaseEffect;
  }

  lemma CurrentFlightSettles(s: Store, id: nat, n: nat)
    requires RefreshOk(s, n) && s.inFlight == Some(id) && InSettleGap(s, id)
    ensures s.flights[id].phase.Settling?
  {}

  // A read in flight asks for what was loaded when it began. When the last lease on a slice ends meanwhile,
  // a full answer is shown as it came, and a receipt brings back the slice's digest alone.
  lemma ReleaseDuringReadComesBack(s: Store, id: nat, l: nat, heavy: Snapshot, x: Slice, now: int)
    requires RefreshOk(s, s.step) && LeasesOk(s, s.step) && s.inFlight == Some(id)
    requires Current(s, id) && s.flights[id].phase.Reading? && x in s.flights[id].slices
    requires l in s.leases && s.leases[l].holding.Held? && Holders(s.leases, x) == {l} && x in DEDICATED_SLICES
    ensures var freed := Step(s, DisposeLease(l), now);
            var shown := Step(freed, SnapshotReply(id, Answer(heavy)), now).shown;
      && x !in freed.loaded && x !in freed.counts && shown.snapshot.Some?
      && (!heavy.notModified ==> shown.snapshot == Some(heavy))
      && (heavy.notModified && freed.shown.snapshot.Some? && heavy.revision.Some? ==>
            Digests(shown.snapshot.value) == Digests(heavy)
            && (x in shown.snapshot.value.payload <==> x in freed.shown.snapshot.value.payload))
  {
    hide Step, RefreshOk, LeasesOk, Listed, Looping;
    LastHolderUnloads(s, l, x, s.step);
    DisposeReturns(s, l, now);
    AnswerIsShown(Step(s, DisposeLease(l), now), id, heavy, now);
    if Step(s, DisposeLease(l), now).shown.snapshot.Some? {
      SkippedReceiptIsInvisible(Step(s, DisposeLease(l), now).shown.snapshot.value, heavy);
    }
  }

  lemma DisposeReturns(s: Store, l: nat, now: int)
    requires l in s.leases && s.leases[l].holding.Held?
    ensures var g := Step(s, DisposeLease(l), now);
      && g.loaded == Return(s, l).loaded && g.counts == Return(s, l).counts
      && g.flights == s.flights && g.generation == s.generation
  {}

  lemma AnswerIsShown(s: Store, id: nat, snapshot: Snapshot, now: int)
    requires Current(s, id) && s.flights[id].phase.Reading?
    ensures Step(s, SnapshotReply(id, Answer(snapshot)), now).shown.snapshot ==
            Some(if snapshot.notModified && s.shown.snapshot.Some? then Accept(s.shown.snapshot.value, snapshot)
                 else snapshot)
  {}

  lemma LastHolderUnloads(s: Store, l: nat, x: Slice, n: nat)
    requires LeasesOk(s, n) && l in s.leases && Holders(s.leases, x) == {l} && x in DEDICATED_SLICES
    ensures x !in Return(s, l).loaded && x !in Return(s, l).counts
  {}

}
