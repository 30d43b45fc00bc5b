// The store as state.ts writes it: fields changed in place, one method per stretch of code between
// two awaits. Each method is proved against the store's step functions.
module StoreObjects {
  import opened Snapshots
  import opened RetryBudgets
  import opened WorkspaceStores
  import StoreTurns
  import opened Wrappers

  // ---- Giving slices back one by one is giving them back together ----

  lemma DroppedInTurn(counts: map<Slice, nat>, slices: set<Slice>, x: Slice)
    requires x !in slices
    ensures Dropped(Dropped(counts, slices), {x}) == Dropped(counts, slices + {x})
    ensures Freed(Dropped(counts, slices), {x}) == Freed(counts, {x})
    ensures Freed(counts, slices + {x}) == Freed(counts, slices) + Freed(counts, {x})
  {}

  lemma PayloadsInTurn(shown: Shown, payloads: set<Slice>, freed: set<Slice>)
    requires payloads !! freed
    ensures PayloadsOf(shown.(snapshot := WithoutPayloads(shown.snapshot, payloads)), freed) == PayloadsOf(shown, freed)
  {}

  lemma WithoutInTurn(snapshot: Option<Snapshot>, payloads: set<Slice>, more: set<Slice>)
    ensures WithoutPayloads(WithoutPayloads(snapshot, payloads), more) == WithoutPayloads(snapshot, payloads + more)
  {
    if snapshot.Some? {
      WithoutTwice(snapshot.value, payloads, more);
      assert payloads + more == {} <==> payloads == {} && more == {};
      if payloads == {} { assert payloads + more == more; }
      if more == {} { assert payloads + more == payloads; }
    }
  }

  lemma ReleasedInTurn(s: Store, slices: set<Slice>, x: Slice)
    requires x !in slices
    ensures Released(Released(s, slices), {x}) == Released(s, slices + {x})
  {
    hide Dropped, Freed, WithoutPayloads, PayloadsOf;
    DroppedInTurn(s.counts, slices, x);
    FreedIsAsked(s.counts, slices);
    FreedIsAsked(s.counts, {x});
    var first, second := PayloadsOf(s.shown, Freed(s.counts, slices)), PayloadsOf(s.shown, Freed(s.counts, {x}));
    PayloadsAreFreed(s.shown, Freed(s.counts, slices));
    PayloadsInTurn(s.shown, first, Freed(s.counts, {x}));
    PayloadsIgnoreDrops(s.shown, first, Freed(s.counts, {x}), s.step + 1);
    PayloadsOfBoth(s.shown, Freed(s.counts, slices), Freed(s.counts, {x}));
    WithoutInTurn(s.shown.snapshot, first, second);
  }

  lemma FreedIsAsked(counts: map<Slice, nat>, slices: set<Slice>)
    ensures Freed(counts, slices) <= slices
  {}

  lemma PayloadsAreFreed(shown: Shown, freed: set<Slice>)
    ensures PayloadsOf(shown, freed) <= freed
  {}

  lemma PayloadsIgnoreDrops(shown: Shown, payloads: set<Slice>, freed: set<Slice>, droppedAt: nat)
    ensures PayloadsOf(shown.(snapshot := WithoutPayloads(shown.snapshot, payloads), droppedAt := droppedAt), freed) ==
            PayloadsOf(shown.(snapshot := WithoutPayloads(shown.snapshot, payloads)), freed)
  {}

  lemma PayloadsOfBoth(shown: Shown, freed: set<Slice>, more: set<Slice>)
    ensures PayloadsOf(shown, freed + more) == PayloadsOf(shown, freed) + PayloadsOf(shown, more)
  {}

  lemma NoneTaken(counts: map<Slice, nat>)
    ensures Taken(counts, {}) == counts
  {}

  lemma TakenInTurn(counts: map<Slice, nat>, slices: set<Slice>, x: Slice)
    requires x !in slices
    ensures var taken := Taken(counts, slices); taken[x := CountOf(taken, x) + 1] == Taken(counts, slices + {x})
  {}

  lemma NothingReleased(s: Store)
    ensures Released(s, {}) == s
  {}

  lemma OneReleased(shown: Shown, counts: map<Slice, nat>, x: Slice)
    ensures Dropped(counts, {x}) == if CountOf(counts, x) > 1 then counts[x := CountOf(counts, x) - 1] else counts - {x}
    ensures Freed(counts, {x}) == if CountOf(counts, x) <= 1 && x !in CORE_SNAPSHOT_SLICES then {x} else {}
    ensures PayloadsOf(shown, {x}) ==
            if x in DEDICATED_SLICES && shown.snapshot.Some? && x in shown.snapshot.value.payload then {x} else {}
    ensures PayloadsOf(shown, {}) == {}
  {}

  lemma RefreshedKeepsLeases(s: Store, changed: bool, now: int)
    ensures var g := Refreshed(s, changed, now); g.leases == s.leases && g.counts == s.counts
  {}

  lemma RefreshedIgnoresCounts(s: Store, counts: map<Slice, nat>, changed: bool, now: int)
    ensures Refreshed(s.(counts := counts), changed, now) == Refreshed(s, changed, now).(counts := counts)
    ensures Refreshed(s, changed, now).step == s.step && Refreshed(s, changed, now).leases == s.leases
  {}

  lemma EnsuredIgnoresCounts(s: Store, counts: map<Slice, nat>, slices: set<Slice>, now: int)
    ensures Ensured(s.(counts := counts), slices, now) == Ensured(s, slices, now).(counts := counts)
    ensures AwaitedFor(s.(counts := counts), slices) == AwaitedFor(s, slices)
    ensures Ensured(s, slices, now).step == s.step && Ensured(s, slices, now).leases == s.leases
  {
    hide Refreshed;
    RefreshedIgnoresCounts(Loading(s, slices), counts, Adds(s, slices), now);
  }

  class WorkspaceStore {
    var state: Shown
    var flights: map<nat, Flight>
    var inFlight: Option<nat>
    var refreshGeneration: nat
    var forceFullSnapshot: bool
    var loadedSlices: set<Slice>
    var sliceLeases: map<Slice, nat>
    var leases: map<nat, Lease>
    var leaseDisposers: seq<nat>
    var disposed: bool
    var nextName: nat
    var moves: nat

    ghost function View(): Store
      reads this
    {
      Store(state, flights, inFlight, refreshGeneration, forceFullSnapshot, loadedSlices, sliceLeases,
            leases, leaseDisposers, disposed, moves, nextName)
    }

    ghost predicate Valid()
      reads this
    {
      RefreshOk(View(), nextName) && LeasesOk(View(), nextName)
    }

    constructor ()
      ensures Valid() && View() == EMPTY_STORE
    {
      EmptyIsOk();
      state := Shown(None, None, false, false, 0, 0, 0);
      flights, inFlight, refreshGeneration, forceFullSnapshot := map[], None, 0, false;
      loadedSlices, sliceLeases, leases, leaseDisposers := CORE_SNAPSHOT_SLICES, map[], map[], [];
      disposed, nextName, moves := false, 0, 0;
    }

    // ---- Pieces of an event: they leave the next name as it is ----

    method ReleaseSlice(x: Slice)
      modifies this`state, this`sliceLeases, this`loadedSlices
      ensures View() == Released(old(View()), {x})
    {
      hide Freed, PayloadsOf, Dropped, Without;
      OneReleased(state, sliceLeases, x);
      var remaining := CountOf(sliceLeases, x) - 1;
      if remaining > 0 {
        sliceLeases := sliceLeases[x := remaining];
      } else {
        sliceLeases := sliceLeases - {x};
        if x !in CORE_SNAPSHOT_SLICES {
          loadedSlices := loadedSlices - {x};
          if x in DEDICATED_SLICES && state.snapshot.Some? && x in state.snapshot.value.payload {
            state := state.(snapshot := Some(Without(state.snapshot.value, {x}).(notModified := false)),
                            droppedAt := nextName + 1);
          }
        }
      }
    }

    method ReleaseSlices(slices: set<Slice>)
      modifies this`state, this`sliceLeases, this`loadedSlices
      ensures View() == Released(old(View()), slices)
    {
      hide Released;
      ghost var s := View();
      var todo := slices;
      ghost var done := {};
      NothingReleased(s);
      while todo != {}
        invariant done !! todo && done + todo == slices
        invariant View() == Released(s, done)
      {
        var x :| x in todo;
        ReleasedInTurn(s, done, x);
        ReleaseSlice(x);
        todo, done := todo - {x}, done + {x};
      }
      assert done == slices;
    }

    // ---- Refreshing ----

    // Identical requests join the loop that runs; only a change, or the first request, advances the generation.
    method RequestRefresh(changed: bool, now: int) returns (awaited: Option<nat>)
      modifies this`refreshGeneration, this`flights, this`inFlight, this`state
      ensures View() == Refreshed(old(View()), changed, now) && awaited == Awaited(old(View()))
    {
      if disposed {
        return None;
      }
      if inFlight.None? || changed {
        refreshGeneration := refreshGeneration + 1;
      }
      if inFlight.None? {
        state := state.(loading := true);
        var flight := Flight(Reading, refreshGeneration, false, RetryBudgets.Start(now), loadedSlices,
                             if forceFullSnapshot then None else ShownSubject(state),
                             refreshGeneration, 1, nextName, nextName, moves);
        flights := flights[nextName := flight];
        inFlight := Some(nextName);
      }
      awaited := inFlight;
    }

    method LoadSlices(slices: set<Slice>, now: int) returns (awaited: Option<nat>)
      modifies this
      ensures nextName == old(nextName)
      ensures View() == Ensured(old(View()), slices, now) && awaited == AwaitedFor(old(View()), slices)
      ensures leases == old(leases) && sliceLeases == old(sliceLeases)
    {
      hide Refreshed;
      ghost var s := View();
      RefreshedKeepsLeases(Loading(s, slices), Adds(s, slices), now);
      var added := false;
      var todo := slices;
      while todo != {}
        invariant todo <= slices
        invariant loadedSlices == s.loaded + (slices - todo) && (added <==> !(slices - todo <= s.loaded))
        modifies this`loadedSlices
      {
        var x :| x in todo;
        if x !in loadedSlices {
          loadedSlices := loadedSlices + {x};
          added := true;
        }
        todo := todo - {x};
      }
      if added {
        forceFullSnapshot := true;
      }
      assert slices - {} == slices && View() == Loading(s, slices);
      if !added && inFlight.Some? {
        awaited := inFlight;
      } else if added || state.snapshot.None? {
        awaited := RequestRefresh(added, now);
      } else {
        awaited := None;
      }
    }

    method CountSlices(slices: set<Slice>)
      modifies this`sliceLeases
      ensures sliceLeases == Taken(old(sliceLeases), slices)
    {
      hide Taken;
      ghost var counts := sliceLeases;
      var todo := slices;
      NoneTaken(counts);
      assert slices - slices == {};
      while todo != {}
        invariant todo <= slices && sliceLeases == Taken(counts, slices - todo)
      {
        var x :| x in todo;
        TakenInTurn(counts, slices - todo, x);
        assert slices - (todo - {x}) == slices - todo + {x};
        sliceLeases := sliceLeases[x := CountOf(sliceLeases, x) + 1];
        todo := todo - {x};
      }
      assert slices - {} == slices;
    }

    // The slices are counted before they are read, so that nobody drops them meanwhile.
    method TakeLease(slices: set<Slice>, timed: bool, now: int) returns (lease: nat)
      requires slices != {}
      modifies this
      ensures nextName == old(nextName)
      ensures View() == Acquired(old(View()), slices, timed, now) && lease == old(nextName)
    {
      hide Ensured, Taken, AwaitedFor;
      EnsuredIgnoresCounts(View(), Taken(sliceLeases, slices), slices, now);
      CountSlices(slices);
      var awaited := LoadSlices(slices, now);
      lease := nextName;
      leases := leases[lease := Lease(slices, Pending(awaited), timed)];
    }

    method SettleAcquisition(l: nat, ok: bool)
      requires Resolvable(View(), l)
      modifies this
      ensures nextName == old(nextName)
      ensures View() == Resolved(old(View()), l, ok)
    {
      hide Released;
      if ok {
        leases := leases[l := leases[l].(holding := Held)];
        leaseDisposers := leaseDisposers + [l];
      } else {
        GiveBack(l);
      }
    }

    method GiveBack(l: nat)
      requires l in leases
      modifies this
      ensures nextName == old(nextName)
      ensures View() == Return(old(View()), l)
    {
      hide Released;
      var slices := leases[l].slices;
      leases := leases[l := leases[l].(holding := Returned, timed := false)];
      leaseDisposers := Remove(leaseDisposers, l);
      ReleaseSlices(slices);
    }

    method ReturnLease(l: nat)
      modifies this
      ensures nextName == old(nextName)
      ensures View() == LeaseDisposed(old(View()), l)
    {
      hide Return;
      if l in leases && leases[l].holding.Held? {
        GiveBack(l);
      }
    }

    method Abort()
      modifies this`flights
      ensures flights == Aborting(old(flights), inFlight)
    {
      if inFlight.Some? && inFlight.value in flights {
        flights := flights[inFlight.value := flights[inFlight.value].(aborted := true)];
      }
    }

    // Everything bound to the repository left behind is invalidated at once; the flight that reads it
    // is detached, so that the next repository's refresh never waits for it.
    method ForgetRepository(cached: Option<Snapshot>)
      modifies this
      ensures nextName == old(nextName)
      ensures View() == Moved(old(View()), cached)
    {
      hide Aborting, WithoutEphemeral, CountOf;
      refreshGeneration := refreshGeneration + 1;
      forceFullSnapshot := true;
      Abort();
      inFlight := None;
      moves := moves + 1;
      var snapshot := None;
      if cached.Some? {
        var retained := if CountOf(sliceLeases, Comprehension) > 0 then {Comprehension} else {};
        snapshot := Some(WithoutEphemeral(cached.value, retained));
      }
      state := state.(snapshot := snapshot, error := None, loading := false, stale := cached.Some?, readIn := moves);
    }

    method ShowCached(cached: Option<Snapshot>)
      modifies this`state
      ensures View() == Primed(old(View()), cached)
    {
      if state.snapshot.None? && cached.Some? {
        var snapshot := WithoutEphemeral(cached.value, {});
        state := state.(snapshot := Some(snapshot), error := None, stale := true, readIn := moves);
      }
    }

    method CloseStore()
      modifies this
      ensures nextName == old(nextName)
      ensures View() == StoreDisposed(old(View()))
    {
      hide LeaseDisposed, Aborting;
      disposed := true;
      Abort();
      ghost var s := View();
      var order := leaseDisposers;
      for i := 0 to |order|
        invariant View() == AllDisposed(s, order[..i]) && nextName == old(nextName)
      {
        assert order[..i + 1][..i] == order[..i];
        ReturnLease(order[i]);
      }
      assert order[..|order|] == order;
    }

    // ---- One turn of the loop ----

    // The while condition, after an iteration was discarded.
    method NextIteration(id: nat, now: int)
      requires id in flights
      modifies this`flights
      ensures flights == old(flights)[id := Continued(old(View()), old(flights)[id], now)]
    {
      var flight := flights[id];
      if flight.aborted || disposed {
        flight := flight.(phase := Settling);
      } else {
        flight := flight.(phase := Reading, generation := refreshGeneration, retry := RetryBudgets.Start(now),
                          slices := loadedSlices,
                          receipt := if forceFullSnapshot then None else ShownSubject(state),
                          iterations := flight.iterations + 1,
                          begunAt := nextName, readAt := nextName, readIn := moves);
      }
      flights := flights[id := flight];
    }

    method EndLoop(id: nat)
      requires id in flights
      modifies this`flights
      ensures flights == old(flights)[id := old(flights)[id].(phase := Settling)]
    {
      flights := flights[id := flights[id].(phase := Settling)];
    }

    method TakeSnapshot(id: nat, snapshot: Snapshot, now: int)
      requires id in flights && flights[id].phase.Reading?
      modifies this`flights, this`state, this`forceFullSnapshot
      ensures View() == Replied(old(View()), id, SnapshotReply(id, Answer(snapshot)), now)
    {
      hide Continued, ChangedSlices, Accept;
      var flight := flights[id];
      if flight.generation != refreshGeneration {
        NextIteration(id, now);
      } else if snapshot.notModified && state.snapshot.Some? {
        state := state.(snapshot := Some(Accept(state.snapshot.value, snapshot)), error := None,
                        loading := false, stale := false);
        EndLoop(id);
      } else {
        forceFullSnapshot := false;
        state := state.(snapshot := Some(snapshot), error := None, loading := false, stale := false,
                        readIn := flight.readIn, errorIn := flight.readIn);
        EndLoop(id);
      }
    }

    method TakeFailure(id: nat, reply: Reply, now: int)
      requires id in flights && flights[id].phase.Reading? && !reply.Answer?
      modifies this`flights, this`state
      ensures View() == Replied(old(View()), id, SnapshotReply(id, reply), now)
    {
      hide Continued, Backoff;
      var flight := flights[id];
      if flight.aborted || disposed {
        EndLoop(id);
      } else if reply.Failed? && reply.transient && MayRetry(flight.retry) {
        flights := flights[id := flight.(phase := Waiting, retry := Backoff(flight.retry, now))];
      } else if flight.generation != refreshGeneration {
        NextIteration(id, now);
      } else if reply.Superseded? {
        state := state.(loading := false);
        EndLoop(id);
      } else {
        flights := flights[id := flight.(phase := Configuring(reply.error, nextName))];
      }
    }

    // The wait is over, because its time has come or because it was cut short.
    method TryAgain(id: nat, now: int)
      requires id in flights && flights[id].phase.Waiting? && (flights[id].aborted || flights[id].retry.wakeAt <= now)
      modifies this`flights
      ensures View() == Replied(old(View()), id, Wake(id), now)
    {
      var flight := flights[id];
      flight := flight.(phase := Reading, slices := loadedSlices, retry := Woken(flight.retry), readAt := nextName,
                        receipt := if forceFullSnapshot then None else ShownSubject(state));
      flights := flights[id := flight];
    }

    method TakeConfiguration(id: nat, reply: Reply, now: int)
      requires id in flights && flights[id].phase.Configuring?
      modifies this`flights, this`state
      ensures View() == Replied(old(View()), id, ConfigurationReply(id, reply), now)
    {
      hide Continued;
      var flight := flights[id];
      if flight.generation != refreshGeneration {
        NextIteration(id, now);
      } else if reply.Answer? {
        var leased := INDEPENDENT_SLICES * loadedSlices;
        var phase := Independent(flight.phase.failure, reply.snapshot, leased, flight.phase.askedAt, nextName);
        flights := flights[id := flight.(phase := phase)];
      } else if flight.aborted || disposed {
        EndLoop(id);
      } else if reply.Superseded? {
        state := state.(loading := false);
        EndLoop(id);
      } else {
        state := state.(error := Some(flight.phase.failure), loading := false, errorIn := flight.readIn);
        EndLoop(id);
      }
    }

    method TakeIndependent(id: nat, extra: Option<Snapshot>, now: int)
      requires id in flights && flights[id].phase.Independent?
      modifies this`flights, this`state
      ensures View() == Replied(old(View()), id, IndependentReply(id, extra), now)
    {
      hide Continued, Recovery, ChangedSlices;
      var flight := flights[id];
      if flight.generation != refreshGeneration {
        NextIteration(id, now);
      } else {
        var recovery := Recovery(flight.phase.configuration, flight.phase.leased, extra);
        state := state.(snapshot := Some(recovery), error := Some(flight.phase.failure),
                        loading := false, stale := false,
                        readIn := flight.readIn, errorIn := flight.readIn);
        EndLoop(id);
      }
    }

    // A flight that ends makes way only for itself.
    method EndFlight(id: nat)
      requires id in flights
      modifies this`flights, this`inFlight
      ensures View() == Settled(old(View()), id)
    {
      flights := flights[id := flights[id].(phase := Done)];
      if inFlight == Some(id) {
        inFlight := None;
      }
    }

    // ---- The store as its callers see it: one event each ----

    // Ends an event: the next one gets the next name.
    method Tick(ghost s: Store, ghost e: Event, ghost now: int)
      requires RefreshOk(s, s.step) && LeasesOk(s, s.step) && View() == Effect(s, e, now) && nextName == s.step
      modifies this`nextName
      ensures Valid() && View() == Step(s, e, now)
    {
      hide Effect, RefreshOk, LeasesOk;
      StepKeeps(s, e, now);
      nextName := nextName + 1;
    }

    method Refresh(changed: bool, now: int) returns (awaited: Option<nat>)
      requires Valid()
      modifies this
      ensures Valid() && View() == Step(old(View()), Event.Refresh(changed), now) && awaited == Awaited(old(View()))
    {
      hide Refreshed, RefreshOk, LeasesOk;
      ghost var s := View();
      awaited := RequestRefresh(changed, now);
      Tick(s, Event.Refresh(changed), now);
    }

    method EnsureSlices(slices: set<Slice>, now: int) returns (awaited: Option<nat>)
      requires Valid()
      modifies this
      ensures Valid() && View() == Step(old(View()), Ensure(slices), now)
      ensures awaited == AwaitedFor(old(View()), slices)
    {
      hide Ensured, RefreshOk, LeasesOk;
      ghost var s := View();
      awaited := LoadSlices(slices, now);
      Tick(s, Ensure(slices), now);
    }

    // An acquisition of no slices is refused.
    method AcquireSlices(slices: set<Slice>, timed: bool, now: int) returns (lease: Option<nat>)
      requires Valid()
      modifies this
      ensures Valid() && View() == Step(old(View()), Acquire(slices, timed), now)
      ensures lease == if slices == {} then None else Some(old(nextName))
      ensures lease.Some? ==> lease.value !in old(leases)
    {
      hide Acquired, RefreshOk;
      ghost var s := View();
      lease := None;
      if slices != {} {
        var name := TakeLease(slices, timed, now);
        lease := Some(name);
      }
      Tick(s, Acquire(slices, timed), now);
    }

    method ResolveAcquisition(l: nat, ok: bool, now: int)
      requires Valid() && Resolvable(View(), l)
      modifies this
      ensures Valid() && View() == Step(old(View()), Resolve(l, ok), now)
    {
      hide Resolved, RefreshOk, LeasesOk;
      ghost var s := View();
      SettleAcquisition(l, ok);
      Tick(s, Resolve(l, ok), now);
    }

    // Only a lease that is still held starts its timer again.
    method RenewLease(l: nat, now: int)
      requires Valid()
      modifies this
      ensures Valid() && View() == Step(old(View()), Renew(l), now)
    {
      hide RefreshOk, LeasesOk;
      ghost var s := View();
      if l in leases && leases[l].holding.Held? {
        leases := leases[l := leases[l].(timed := true)];
      }
      Tick(s, Renew(l), now);
    }

    method ExpireLease(l: nat, now: int)
      requires Valid()
      modifies this
      ensures Valid() && View() == Step(old(View()), Expire(l), now)
    {
      hide LeaseDisposed, RefreshOk, LeasesOk;
      ghost var s := View();
      if l in leases && leases[l].timed {
        ReturnLease(l);
      }
      Tick(s, Expire(l), now);
    }

    method DisposeLease(l: nat, now: int)
      requires Valid()
      modifies this
      ensures Valid() && View() == Step(old(View()), Event.DisposeLease(l), now)
    {
      hide LeaseDisposed, RefreshOk, LeasesOk;
      ghost var s := View();
      ReturnLease(l);
      Tick(s, Event.DisposeLease(l), now);
    }

    method RepositoryChanged(cached: Option<Snapshot>, now: int)
      requires Valid()
      modifies this
      ensures Valid() && View() == Step(old(View()), Move(cached), now)
    {
      hide Moved, RefreshOk, LeasesOk;
      ghost var s := View();
      ForgetRepository(cached);
      Tick(s, Move(cached), now);
    }

    method PrimeFromCache(cached: Option<Snapshot>, now: int)
      requires Valid()
      modifies this
      ensures Valid() && View() == Step(old(View()), Prime(cached), now)
    {
      hide Primed, RefreshOk, LeasesOk;
      ghost var s := View();
      ShowCached(cached);
      Tick(s, Prime(cached), now);
    }

    method Dispose(now: int)
      requires Valid()
      modifies this
      ensures Valid() && View() == Step(old(View()), DisposeStore, now)
    {
      hide StoreDisposed, RefreshOk, LeasesOk;
      ghost var s := View();
      CloseStore();
      Tick(s, DisposeStore, now);
    }

    method OnSnapshot(id: nat, snapshot: Snapshot, now: int)
      requires Valid() && id in flights && flights[id].phase.Reading?
      modifies this
      ensures Valid() && View() == Step(old(View()), SnapshotReply(id, Answer(snapshot)), now)
      ensures old(flights[id].generation) == old(refreshGeneration) ==>
                && state.error == None && !state.loading && !state.stale
                && state.snapshot == if snapshot.notModified && old(state.snapshot).Some?
                                     then Some(Accept(old(state.snapshot).value, snapshot)) else Some(snapshot)
    {
      hide Replied, RefreshOk, LeasesOk;
      ghost var s := View();
      TakeSnapshot(id, snapshot, now);
      Tick(s, SnapshotReply(id, Answer(snapshot)), now);
      if s.flights[id].generation == s.generation {
        StoreTurns.AnswersAreShown(s, SnapshotReply(id, Answer(snapshot)), now);
      }
    }

    method OnReadFailure(id: nat, reply: Reply, now: int)
      requires Valid() && id in flights && flights[id].phase.Reading? && !reply.Answer?
      modifies this
      ensures Valid() && View() == Step(old(View()), SnapshotReply(id, reply), now)
    {
      hide Replied, RefreshOk, LeasesOk;
      ghost var s := View();
      TakeFailure(id, reply, now);
      Tick(s, SnapshotReply(id, reply), now);
    }

    method OnWake(id: nat, now: int)
      requires Valid() && id in flights && flights[id].phase.Waiting?
      requires flights[id].aborted || flights[id].retry.wakeAt <= now
      modifies this
      ensures Valid() && View() == Step(old(View()), Wake(id), now)
    {
      hide Replied, RefreshOk, LeasesOk;
      ghost var s := View();
      TryAgain(id, now);
      Tick(s, Wake(id), now);
    }

    method OnConfiguration(id: nat, reply: Reply, now: int)
      requires Valid() && id in flights && flights[id].phase.Configuring?
      modifies this
      ensures Valid() && View() == Step(old(View()), ConfigurationReply(id, reply), now)
    {
      hide Replied, RefreshOk, LeasesOk;
      ghost var s := View();
      TakeConfiguration(id, reply, now);
      Tick(s, ConfigurationReply(id, reply), now);
    }

    method OnIndependent(id: nat, extra: Option<Snapshot>, now: int)
      requires Valid() && id in flights && flights[id].phase.Independent?
      modifies this
      ensures Valid() && View() == Step(old(View()), IndependentReply(id, extra), now)
    {
      hide Replied, RefreshOk, LeasesOk;
      ghost var s := View();
      TakeIndependent(id, extra, now);
      Tick(s, IndependentReply(id, extra), now);
    }

    method OnSettled(id: nat, now: int)
      requires Valid() && id in flights && flights[id].phase.Settling?
      modifies this
      ensures Valid() && View() == Step(old(View()), Settle(id), now)
    {
      hide Settled, RefreshOk, LeasesOk;
      ghost var s := View();
      EndFlight(id);
      Tick(s, Settle(id), now);
    }
  }
}
