// What an acquisition waits for: the read that brings its slices, unless it came between the loop's last
// check and the `finally`.
module StoreAcquisitions {
  import opened Snapshots
  import opened WorkspaceStores
  import opened StoreRuns
  import opened Wrappers

  // ---- A current read asks for all that is loaded ----

  lemma AddingSupersedes(s: Store, e: Event, now: int)
    requires !s.disposed && !Supersedes(s, e)
    ensures Step(s, e, now).loaded <= s.loaded
  {
    hide LeaseEffect, FlightEffect, Taken, WithoutEphemeral, Aborting, Launched;
    if OfLease(e) { LeaseOnlyReleases(s, e); }
    if OfFlight(e) { FlightOnlyAdvances(s, e, now); }
  }

  lemma ReadsNow(s: Store, g: Store, f: Flight)
    requires Read(g, f, s.step)
    ensures f.slices == g.loaded
  {}

  // The flight did not begin to read in this step, so it is what it was.
  lemma OlderReadStays(s: Store, g: Store, before: Flight, after: Flight)
    requires Evolves(s, g, before, after) && !Read(g, after, s.step) && after.begunAt <= after.readAt
    requires before.readAt < s.step
    ensures after.slices == before.slices && after.readAt == before.readAt && after.generation == before.generation
    ensures after.begunAt == before.begunAt
  {}

  lemma StaysCurrent(s: Store, e: Event, now: int, id: nat)
    requires RefreshOk(s, s.step) && LeasesOk(s, s.step)
    requires var g := Step(s, e, now); Current(g, id) && !g.disposed
    ensures var g := Step(s, e, now);
      || g.flights[id].slices == g.loaded
      || (Current(s, id) && !s.disposed && g.flights[id].slices == s.flights[id].slices && g.loaded <= s.loaded)
  {
    hide Step, RefreshOk, LeasesOk, Evolves, Read, Began, Owes, Supersedes;
    var g := Step(s, e, now);
    StepKeeps(s, e, now);
    StepEvolves(s, e, now, id);
    FlightIsOk(g, id, s.step + 1);
    if Read(g, g.flights[id], s.step) {
      ReadsNow(s, g, g.flights[id]);
    } else if id in s.flights {
      FlightIsOk(s, id, s.step);
      OlderReadStays(s, g, s.flights[id], g.flights[id]);
      SupersedingBumps(s, e, now);
      StepOwes(s, e, now, id);
      AddingSupersedes(s, e, now);
    } else {
      NewReads(g, g.flights[id], s.step);
    }
  }

  lemma NewReads(g: Store, f: Flight, at: nat)
    requires New(g, f, at)
    ensures Read(g, f, at)
  {}

  lemma {:induction false} CurrentAsksForAll(events: seq<Timed>, id: nat)
    requires Current(Run(events), id) && !Run(events).disposed
    ensures Run(events).loaded <= Run(events).flights[id].slices
  {
    hide Step, RefreshOk, LeasesOk;
    var front, last := events[..|events| - 1], events[|events| - 1];
    StoreInvariant(front);
    StaysCurrent(Run(front), last.event, last.now, id);
    if Current(Run(front), id) && !Run(front).disposed { CurrentAsksForAll(front, id); }
  }

  // ---- A lease under way ----

  lemma PendingIsLoaded(s: Store, l: nat, n: nat)
    requires LeasesOk(s, n) && l in s.leases && !s.leases[l].holding.Returned?
    ensures s.leases[l].slices <= s.loaded
  {
    forall x | x in s.leases[l].slices ensures x in s.loaded {
      CountIs(s.counts, s.leases, x);
      assert l in Holders(s.leases, x);
    }
  }

  lemma LeasePendsOn(s: Store, e: Event, l: nat)
    requires OfLease(e)
    requires var g := LeaseEffect(s, e); l in g.leases && g.leases[l].holding.Pending?
    ensures l in s.leases && LeaseEffect(s, e).leases[l] == s.leases[l]
  {
    hide Freed, PayloadsOf, WithoutPayloads, Dropped, Remove, AllDisposed, Aborting;
    if e.DisposeStore? {
      DisposalAwaits(s.(disposed := true, flights := Aborting(s.flights, s.inFlight)), s.disposers, l);
    }
  }

  lemma RequestPendsOn(s: Store, e: Event, now: int, l: nat)
    requires !OfFlight(e) && !OfLease(e)
    requires var g := RequestEffect(s, e, now); l in g.leases && g.leases[l].holding.Pending?
    ensures var g := RequestEffect(s, e, now);
      || (l in s.leases && g.leases[l] == s.leases[l])
      || (e.Acquire? && l == s.step && g.leases[l] == Lease(e.slices, Pending(AwaitedFor(s, e.slices)), e.timed))
  {
    hide Launched, Bumped, Taken, WithoutEphemeral, AwaitedFor;
  }

  lemma PendingComesFrom(s: Store, e: Event, now: int, l: nat)
    requires var g := Step(s, e, now); l in g.leases && g.leases[l].holding.Pending?
    ensures var g := Step(s, e, now);
      || (l in s.leases && g.leases[l] == s.leases[l])
      || (e.Acquire? && l == s.step && g.leases[l] == Lease(e.slices, Pending(AwaitedFor(s, e.slices)), e.timed))
  {
    hide FlightEffect, LeaseEffect, RequestEffect, AwaitedFor;
    if OfFlight(e) {
      FlightLeavesLeases(s, e, now);
    } else if OfLease(e) {
      LeasePendsOn(s, e, l);
    } else {
      RequestPendsOn(s, e, now, l);
    }
  }

  // ---- From the acquisition to the end of its flight ----

  // Where flight `id` stands in `s` for an acquisition made in `at`.
  ghost predicate Brings(at: Store, s: Store, id: nat, slices: set<Slice>) {
    id in s.flights &&
    var f := s.flights[id];
    || f.aborted || s.disposed
    || (if InSettleGap(at, id) then !Looping(f) && f.readAt < at.step
        else slices <= f.slices || (Looping(f) && f.generation < s.generation))
  }

  lemma EndedKeepsItsRead(s: Store, e: Event, now: int, id: nat)
    requires id in s.flights && id != s.step && !Looping(s.flights[id])
    ensures var g := Step(s, e, now);
      id in g.flights && !Looping(g.flights[id]) && g.flights[id].readAt == s.flights[id].readAt
  {
    hide FlightEffect, LeaseEffect, RequestEffect, Launches, Aborting;
    if OfFlight(e) {
      EndedIsLeftAlone(s, e, now, id);
    } else {
      NonReplyLaunches(s, e, now);
      LaunchKeepsRecovering(s, Step(s, e, now).(step := s.step), id);
    }
  }

  lemma EndedIsLeftAlone(s: Store, e: Event, now: int, id: nat)
    requires OfFlight(e) && id in s.flights && !Looping(s.flights[id])
    ensures var g := FlightEffect(s, e, now);
      id in g.flights && !Looping(g.flights[id]) && g.flights[id].readAt == s.flights[id].readAt
  {
    hide Replied;
    if e.flight in s.flights && !e.Settle? {
      RepliedKeepsOthers(s, e.flight, e, now);
      TurnOwes(s, e.flight, e, now);
    }
  }

  lemma StepBrings(at: Store, s: Store, e: Event, now: int, id: nat, slices: set<Slice>)
    requires RefreshOk(s, s.step) && LeasesOk(s, s.step) && Brings(at, s, id, slices) && at.step <= s.step
    requires slices <= Step(s, e, now).loaded
    ensures Brings(at, Step(s, e, now), id, slices)
  {
    hide Step, RefreshOk, LeasesOk, Evolves, Read, Began, Supersedes;
    var g := Step(s, e, now);
    StepKeeps(s, e, now);
    StepEvolves(s, e, now, id);
    StepOwes(s, e, now, id);
    SupersedingBumps(s, e, now);
    FlightIsOk(s, id, s.step);
    FlightIsOk(g, id, s.step + 1);
    AbortedForGood(s, e, now, id);
    if !Looping(s.flights[id]) { EndedKeepsItsRead(s, e, now, id); }
    if Read(g, g.flights[id], s.step) {
      ReadsNow(s, g, g.flights[id]);
    } else {
      OlderReadStays(s, g, s.flights[id], g.flights[id]);
    }
  }

  lemma AbortedForGood(s: Store, e: Event, now: int, id: nat)
    requires RefreshOk(s, s.step) && id in s.flights
    ensures var g := Step(s, e, now); id in g.flights && (s.flights[id].aborted ==> g.flights[id].aborted)
  {
    hide FlightEffect, LeaseEffect, RequestEffect, RefreshOk, Launches;
    FlightsAreOld(s, s.step);
    if OfFlight(e) {
      ReplyKeepsAborted(s, e, now, id);
    } else {
      NonReplyLaunches(s, e, now);
      LaunchKeepsAborted(s, Step(s, e, now).(step := s.step), id);
    }
  }

  lemma ReplyKeepsAborted(s: Store, e: Event, now: int, id: nat)
    requires OfFlight(e) && id in s.flights
    ensures var g := FlightEffect(s, e, now); id in g.flights && g.flights[id].aborted == s.flights[id].aborted
  {
    hide Replied;
    if e.flight in s.flights && !e.Settle? {
      RepliedIs(s, e.flight, e, now);
      TurnKeepsAborted(s, s.flights[e.flight], e, now);
    }
  }

  lemma TurnKeepsAborted(s: Store, f: Flight, e: Event, now: int)
    ensures Turned(s, f, TurnOf(s, f, e, now), now).aborted == f.aborted
  {}

  lemma LaunchKeepsAborted(s: Store, g: Store, id: nat)
    requires id in s.flights && id != s.step && Launches(s, g)
    ensures id in g.flights && (s.flights[id].aborted ==> g.flights[id].aborted)
  {}

  // At once: a joiner's flight asks for its slices, is stale and will read again, or has ended.
  lemma AcquiredBrings(events: seq<Timed>, slices: set<Slice>, timed: bool, now: int, id: nat)
    requires AwaitedFor(Run(events), slices) == Some(id) && slices != {}
    ensures Brings(Run(events), Step(Run(events), Acquire(slices, timed), now), id, slices)
  {
    var s := Run(events);
    hide Run, Step, RefreshOk, LeasesOk, Supersedes;
    StoreInvariant(events);
    CurrentFlightIsOk(s, s.step);
    FlightsAreOld(s, s.step);
    AcquiredFlights(s, slices, timed, now);
    if s.inFlight.Some? {
      FlightIsOk(s, id, s.step);
      if Current(s, id) && !s.disposed { CurrentAsksForAll(events, id); }
    }
  }

  lemma AcquiredFlights(s: Store, slices: set<Slice>, timed: bool, now: int)
    requires slices != {}
    ensures var g := Step(s, Acquire(slices, timed), now);
      && g.disposed == s.disposed && g.loaded == s.loaded + slices
      && g.generation == s.generation + (if !s.disposed && Asks(s, slices) then 1 else 0)
      && (s.inFlight.Some? ==> g.flights == s.flights)
      && (s.inFlight.None? && AwaitedFor(s, slices).Some? ==>
            AwaitedFor(s, slices) == Some(s.step) && s.step in g.flights && g.flights[s.step].slices == g.loaded)
  {
    hide Taken;
  }

  ghost predicate Waits(s: Store, l: nat, id: nat) {
    l in s.leases && s.leases[l].holding == Pending(Some(id))
  }

  lemma {:induction false} WaitsForItsSlices(events: seq<Timed>, l: nat, id: nat)
    requires Waits(Run(events), l, id)
    ensures l < |events| && Brings(Run(events[..l]), Run(events), id, Run(events).leases[l].slices)
  {
    hide Step, RefreshOk, LeasesOk, Brings, AwaitedFor;
    var front, last := events[..|events| - 1], events[|events| - 1];
    StoreInvariant(front);
    StoreInvariant(events);
    PendingComesFrom(Run(front), last.event, last.now, l);
    LeasesAreOld(Run(front), |front|);
    var slices := Run(events).leases[l].slices;
    PendingIsLoaded(Run(events), l, |events|);
    if l in Run(front).leases {
      WaitsForItsSlices(front, l, id);
      StoreInvariant(front[..l]);
      assert front[..l] == events[..l];
      StepBrings(Run(events[..l]), Run(front), last.event, last.now, id, slices);
    } else {
      SomethingIsAcquired(Run(front), last.event, last.now);
      AcquiredBrings(front, slices, last.event.timed, last.now, id);
      assert events[..l] == front;
    }
  }

  lemma LeasesAreOld(s: Store, n: nat)
    requires LeasesOk(s, n)
    ensures forall l | l in s.leases :: l < n
  {}

  lemma SomethingIsAcquired(s: Store, e: Event, now: int)
    requires s.step !in s.leases && s.step in Step(s, e, now).leases && e.Acquire?
    ensures e.slices != {}
  {
    hide Launched, Bumped, Taken;
  }

  // When the flight that an acquisition waits for has ended, and was neither aborted nor disposed of, its last
  // attempt asked for the acquisition's slices, also when it had been under way before: exactly unless the
  // acquisition fell into the settle gap and some slice of it was not loaded when that attempt began.
  lemma AcquisitionsWaitForTheirSlices(events: seq<Timed>, l: nat, id: nat)
    requires Waits(Run(events), l, id)
    ensures l < |events| && id in Run(events).flights
    ensures var s, f := Run(events), Run(events).flights[id];
            var slices := s.leases[l].slices;
      && f.readAt < |events| && f.slices == Run(events[..f.readAt + 1]).loaded
      && (!Looping(f) && !f.aborted && !s.disposed ==>
            && (InSettleGap(Run(events[..l]), id) ==> f.readAt < l)
            && (slices <= f.slices <==>
                  !InSettleGap(Run(events[..l]), id) || slices <= Run(events[..f.readAt + 1]).loaded))
  {
    hide Run;
    WaitsForItsSlices(events, l, id);
    FlightsRemember(events, id);
    StoreInvariant(events[..l]);
    hide RefreshOk, LeasesOk;
  }

  lemma AcquiredInTheGap(s: Store, id: nat)
    requires s.inFlight == Some(id) && InSettleGap(s, id) && s.flights[id].phase.Settling?
    requires Comprehension !in s.loaded && !s.disposed
    ensures var g := Step(s, Acquire({Comprehension}, false), 0);
      && Waits(g, s.step, id) && g.leases[s.step].slices == {Comprehension} && g.flights == s.flights
      && g.disposed == s.disposed
  {
    hide Taken;
  }

  lemma FlightEnds(s: Store, id: nat)
    requires id in s.flights && s.flights[id].phase.Settling?
    ensures var g := Step(s, Settle(id), 0);
      g.flights == s.flights[id := s.flights[id].(phase := Done)] && g.leases == s.leases && g.disposed == s.disposed
  {}

  // An acquisition in the gap waits for a read that never asked for its slice, and no other is made.
  lemma AcquisitionInTheGapIsMissed()
    ensures var s := Run(ANSWERED + [Timed(Acquire({Comprehension}, false), 0)] + [Timed(Settle(0), 0)]);
      && Waits(s, 2, 0) && s.leases[2].slices == {Comprehension} && !s.disposed
      && s.flights.Keys == {0} && s.flights[0].phase.Done? && !s.flights[0].aborted
      && Comprehension !in s.flights[0].slices
  {
    SettleGapIsReachable();
    OneFlight();
    RunAppends(ANSWERED, Acquire({Comprehension}, false));
    RunAppends(ANSWERED + [Timed(Acquire({Comprehension}, false), 0)], Settle(0));
    hide Step, Run;
    AcquiredInTheGap(Run(ANSWERED), 0);
    FlightEnds(Step(Run(ANSWERED), Acquire({Comprehension}, false), 0), 0);
  }

  lemma OneFlight()
    ensures Run(ANSWERED).flights.Keys == {0}
  {
    RunAppends([], Refresh(false));
    RunAppends(REQUESTED, SnapshotReply(0, Answer(CORE_ANSWER)));
    assert REQUESTED == [] + [Timed(Refresh(false), 0)];
    hide Step;
    FirstRead(Run([]), Refresh(false));
    FlightsAreKept(Run(REQUESTED), SnapshotReply(0, Answer(CORE_ANSWER)), 0);
  }
}
