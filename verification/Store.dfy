// WorkspaceStore of apps/vscode/src/state.ts as a state machine: one refresh loop with generations,
// retries, recovery and not-modified receipts, slice leases, and moves between repositories.
//
// One event is one stretch of code between two awaits. Listeners do not call back into the store.
// A flight is one run of refreshLoop, named by the index of the event that started it; a lease is
// named likewise.
module WorkspaceStores {
  import opened Snapshots
  import opened RetryBudgets
  import opened Wrappers

  // What listeners see. History: the repository (number of moves) in which `snapshot` and `error`
  // were read, and one more than the index of the event that last dropped a payload from `snapshot`.
  datatype Shown = Shown(snapshot: Option<Snapshot>, error: Option<nat>, loading: bool, stale: bool,
                         readIn: nat, errorIn: nat, droppedAt: nat)

  // `configuredAt` and `askedAt` are history: the events that asked for the configuration inventory and for
  // what the phase waits for.
  datatype Phase =
    | Reading
    | Waiting
    | Configuring(failure: nat, askedAt: nat)
    | Independent(failure: nat, configuration: Snapshot, leased: set<Slice>, configuredAt: nat, askedAt: nat)
    | Settling
    | Done

  // `slices` and `receipt` are what the current attempt asked for. History: the generation the loop
  // started with, its iterations so far, the events at which the current iteration and attempt
  // began, and the repository of the current iteration.
  datatype Flight = Flight(phase: Phase, generation: nat, aborted: bool, retry: Retry,
                           slices: set<Slice>, receipt: Option<nat>,
                           startedIn: nat, iterations: nat, begunAt: nat, readAt: nat, readIn: nat)

  datatype Holding = Pending(flight: Option<nat>) | Held | Returned
  datatype Lease = Lease(slices: set<Slice>, holding: Holding, timed: bool)

  // `controller` of the source is set and cleared together with `inFlight`. `disposers` keeps the
  // order in which the source's set of lease disposers was filled.
  datatype Store = Store(shown: Shown, flights: map<nat, Flight>, inFlight: Option<nat>,
                         generation: nat, force: bool, loaded: set<Slice>,
                         counts: map<Slice, nat>, leases: map<nat, Lease>, disposers: seq<nat>,
                         disposed: bool, moves: nat, step: nat)

  const EMPTY_STORE := Store(Shown(None, None, false, false, 0, 0, 0), map[], None, 0, false,
                             CORE_SNAPSHOT_SLICES, map[], map[], [], false, 0, 0)

  predicate Looping(f: Flight) {
    !f.phase.Settling? && !f.phase.Done?
  }

  // ---- Beginning a read ----

  function ShownSubject(shown: Shown): Option<nat> {
    if shown.snapshot.Some? then Subject(shown.snapshot.value) else None
  }

  // client.snapshot is called with what is loaded and, unless a full answer is owed, a receipt.
  function Attempting(s: Store, f: Flight): Flight {
    f.(phase := Reading, slices := s.loaded, receipt := if s.force then None else ShownSubject(s.shown),
       readAt := s.step)
  }

  function Iterating(s: Store, f: Flight, now: int): Flight {
    Attempting(s, f.(generation := s.generation, retry := Start(now),
                     iterations := f.iterations + 1, begunAt := s.step, readIn := s.moves))
  }

  function NewFlight(s: Store, now: int): Flight {
    Iterating(s, Flight(Reading, s.generation, false, Start(now), {}, None, s.generation, 0, 0, 0, 0), now)
  }

  // The loop's condition, after an iteration was discarded.
  function Continued(s: Store, f: Flight, now: int): Flight {
    if f.aborted || s.disposed then f.(phase := Settling) else Iterating(s, f, now)
  }

  // ---- Asking for a refresh ----

  function Bumped(s: Store, changed: bool): nat {
    if s.disposed || (s.inFlight.Some? && !changed) then s.generation else s.generation + 1
  }

  function Launched(s: Store, now: int): map<nat, Flight> {
    if s.disposed || s.inFlight.Some? then s.flights else s.flights[s.step := NewFlight(s, now)]
  }

  function Refreshed(s: Store, changed: bool, now: int): Store {
    var g := s.(generation := Bumped(s, changed));
    g.(flights := Launched(g, now),
       inFlight := if s.disposed || s.inFlight.Some? then s.inFlight else Some(s.step),
       shown := s.shown.(loading := s.shown.loading || (!s.disposed && s.inFlight.None?)))
  }

  predicate Adds(s: Store, slices: set<Slice>) {
    !(slices <= s.loaded)
  }

  // Whether ensureSlices goes on to call refresh.
  predicate Asks(s: Store, slices: set<Slice>) {
    Adds(s, slices) || (s.inFlight.None? && s.shown.snapshot.None?)
  }

  function Loading(s: Store, slices: set<Slice>): Store {
    s.(loaded := s.loaded + slices, force := s.force || Adds(s, slices))
  }

  function Ensured(s: Store, slices: set<Slice>, now: int): Store {
    if Asks(s, slices) then Refreshed(Loading(s, slices), Adds(s, slices), now) else s
  }

  // The flight the caller of refresh, or of ensureSlices, waits for.
  function Awaited(s: Store): Option<nat> {
    if s.disposed then None else if s.inFlight.Some? then s.inFlight else Some(s.step)
  }

  function AwaitedFor(s: Store, slices: set<Slice>): Option<nat> {
    if Asks(s, slices) then Awaited(s) else s.inFlight
  }

  // ---- Leases ----

  function CountOf(counts: map<Slice, nat>, x: Slice): nat {
    if x in counts then counts[x] else 0
  }

  function Taken(counts: map<Slice, nat>, slices: set<Slice>): map<Slice, nat> {
    counts + map x | x in slices :: CountOf(counts, x) + 1
  }

  function Dropped(counts: map<Slice, nat>, slices: set<Slice>): map<Slice, nat> {
    map x | x in counts && !(x in slices && counts[x] <= 1) :: if x in slices then counts[x] - 1 else counts[x]
  }

  // Slices whose last holder leaves. Core slices stay loaded whoever holds them.
  function Freed(counts: map<Slice, nat>, slices: set<Slice>): set<Slice> {
    set x | x in slices && CountOf(counts, x) <= 1 && x !in CORE_SNAPSHOT_SLICES
  }

  function PayloadsOf(shown: Shown, freed: set<Slice>): set<Slice> {
    set x | x in freed && x in DEDICATED_SLICES && shown.snapshot.Some? && x in shown.snapshot.value.payload
  }

  function WithoutPayloads(snapshot: Option<Snapshot>, payloads: set<Slice>): Option<Snapshot> {
    if payloads == {} || snapshot.None? then snapshot
    else Some(Without(snapshot.value, payloads).(notModified := false))
  }

  function Released(s: Store, slices: set<Slice>): Store {
    var payloads := PayloadsOf(s.shown, Freed(s.counts, slices));
    s.(counts := Dropped(s.counts, slices), loaded := s.loaded - Freed(s.counts, slices),
       shown := s.shown.(snapshot := WithoutPayloads(s.shown.snapshot, payloads),
                         droppedAt := if payloads == {} then s.shown.droppedAt else s.step + 1))
  }

  function Remove(order: seq<nat>, l: nat): seq<nat> {
    if order == [] then []
    else Remove(order[..|order| - 1], l) + (if order[|order| - 1] == l then [] else [order[|order| - 1]])
  }

  // Lease `l` gives its slices back; an acquisition that failed has no disposer to forget.
  function Return(s: Store, l: nat): Store
    requires l in s.leases
  {
    Released(s.(leases := s.leases[l := s.leases[l].(holding := Returned, timed := false)],
                disposers := Remove(s.disposers, l)),
             s.leases[l].slices)
  }

  // A lease's dispose, by hand, by its timer, or with the store. Only the first one does anything.
  function LeaseDisposed(s: Store, l: nat): Store {
    if l in s.leases && s.leases[l].holding.Held? then Return(s, l) else s
  }

  function AllDisposed(s: Store, order: seq<nat>): Store {
    if order == [] then s else LeaseDisposed(AllDisposed(s, order[..|order| - 1]), order[|order| - 1])
  }

  function Acquired(s: Store, slices: set<Slice>, timed: bool, now: int): Store {
    Ensured(s, slices, now)
      .(counts := Taken(s.counts, slices),
        leases := s.leases[s.step := Lease(slices, Pending(AwaitedFor(s, slices)), timed)])
  }

  predicate Resolvable(s: Store, l: nat) {
    l in s.leases && s.leases[l].holding.Pending? &&
    (s.leases[l].holding.flight.Some? ==>
       s.leases[l].holding.flight.value in s.flights && s.flights[s.leases[l].holding.flight.value].phase.Done?)
  }

  // What the acquisition waited for is there, or it failed and the slices are given back.
  function Resolved(s: Store, l: nat, ok: bool): Store {
    if !Resolvable(s, l) then s
    else if ok
    then s.(leases := s.leases[l := s.leases[l].(holding := Held)], disposers := s.disposers + [l])
    else Return(s, l)
  }

  // ---- The cache and moves ----

  function Primed(s: Store, cached: Option<Snapshot>): Store {
    if s.shown.snapshot.Some? || cached.None? then s
    else s.(shown := s.shown.(snapshot := Some(WithoutEphemeral(cached.value, {})), error := None, stale := true,
                              readIn := s.moves))
  }

  function Aborting(flights: map<nat, Flight>, inFlight: Option<nat>): map<nat, Flight> {
    if inFlight.Some? && inFlight.value in flights
    then flights[inFlight.value := flights[inFlight.value].(aborted := true)] else flights
  }

  function Moved(s: Store, cached: Option<Snapshot>): Store {
    var retained := if CountOf(s.counts, Comprehension) > 0 then {Comprehension} else {};
    var snapshot := if cached.Some? then Some(WithoutEphemeral(cached.value, retained)) else None;
    s.(generation := s.generation + 1, force := true, flights := Aborting(s.flights, s.inFlight), inFlight := None,
       shown := s.shown.(snapshot := snapshot, error := None, loading := false, stale := cached.Some?,
                         readIn := s.moves + 1),
       moves := s.moves + 1)
  }

  function StoreDisposed(s: Store): Store {
    AllDisposed(s.(disposed := true, flights := Aborting(s.flights, s.inFlight)), s.disposers)
  }

  // ---- One turn of the loop ----

  datatype Reply =
    | Answer(snapshot: Snapshot)
    | Superseded
    | Failed(error: nat, transient: bool)

  datatype Event =
    | Refresh(changed: bool)
    | Ensure(slices: set<Slice>)
    | Acquire(slices: set<Slice>, timed: bool)
    | Resolve(lease: nat, ok: bool)
    | Renew(lease: nat)
    | Expire(lease: nat)
    | DisposeLease(lease: nat)
    | Prime(cached: Option<Snapshot>)
    | Move(cached: Option<Snapshot>)
    | DisposeStore
    | SnapshotReply(flight: nat, reply: Reply)
    | Wake(flight: nat)
    | ConfigurationReply(flight: nat, reply: Reply)
    | IndependentReply(flight: nat, extra: Option<Snapshot>)
    | Settle(flight: nat)

  // What the loop does next.
  datatype Turn =
    | Stay
    | Backed                                // sleep before the next attempt
    | Again                                 // discard this iteration
    | Attempt                               // the next attempt of this iteration
    | Recover(failure: nat)                 // ask for the configuration inventory
    | Ask(failure: nat, configuration: Snapshot)
    | Quit                                  // return without telling anyone
    | Publish(shown: Shown, change: Change, full: bool)  // tell the listeners and return

  // What a publication tells the listeners.
  datatype Kind = CacheRead | LoadingChanged | SnapshotRead | ErrorRead
  datatype Change = Change(kind: Kind, slices: set<Slice>)

  function Receipt(shown: Shown, receipt: Snapshot): Shown
    requires shown.snapshot.Some?
  {
    shown.(snapshot := Some(Accept(shown.snapshot.value, receipt)), error := None, loading := false, stale := false)
  }

  function Full(shown: Shown, snapshot: Snapshot, error: Option<nat>, readIn: nat): Shown {
    shown.(snapshot := Some(snapshot), error := error, loading := false, stale := false,
           readIn := readIn, errorIn := readIn)
  }

  function Quiet(shown: Shown): Shown {
    shown.(loading := false)
  }

  function SnapshotTurn(s: Store, f: Flight, reply: Reply): Turn {
    if !f.phase.Reading? then Stay else
      match reply
      case Answer(snapshot) =>
        if f.generation != s.generation then Again
        else if snapshot.notModified && s.shown.snapshot.Some?
        then Publish(Receipt(s.shown, snapshot), Change(SnapshotRead, {}), false)
        else Publish(Full(s.shown, snapshot, None, f.readIn),
                     Change(SnapshotRead, ChangedSlices(s.shown.snapshot, Some(snapshot))), true)
      case Superseded =>
        if f.aborted || s.disposed then Quit
        else if f.generation != s.generation then Again
        else Publish(Quiet(s.shown), Change(LoadingChanged, {}), false)
      case Failed(error, transient) =>
        if f.aborted || s.disposed then Quit
        else if transient && MayRetry(f.retry) then Backed
        else if f.generation != s.generation then Again
        else Recover(error)
  }

  function ConfigurationTurn(s: Store, f: Flight, reply: Reply): Turn {
    if !f.phase.Configuring? then Stay
    else if f.generation != s.generation then Again
    else if reply.Answer? then Ask(f.phase.failure, reply.snapshot)
    else if f.aborted || s.disposed then Quit
    else if reply.Superseded? then Publish(Quiet(s.shown), Change(LoadingChanged, {}), false)
    else Publish(Quiet(s.shown).(error := Some(f.phase.failure), errorIn := f.readIn), Change(ErrorRead, {}), false)
  }

  function Recovery(configuration: Snapshot, leased: set<Slice>, extra: Option<Snapshot>): Snapshot {
    if extra.None? then configuration else
      var absent := set x: Slice | x !in leased || x !in extra.value.payload;
      var present := Keep([Comprehension, Sgos, Diagnostics], absent);
      if present == [] then configuration else WithSlices(configuration, extra.value, present)
  }

  function IndependentTurn(s: Store, f: Flight, extra: Option<Snapshot>): Turn {
    if !f.phase.Independent? then Stay
    else if f.generation != s.generation then Again
    else
      var recovery := Recovery(f.phase.configuration, f.phase.leased, extra);
      Publish(Full(s.shown, recovery, Some(f.phase.failure), f.readIn),
              Change(ErrorRead, ChangedSlices(s.shown.snapshot, Some(recovery))), false)
  }

  function TurnOf(s: Store, f: Flight, e: Event, now: int): Turn {
    match e
    case SnapshotReply(_, reply) => SnapshotTurn(s, f, reply)
    case Wake(_) => if f.phase.Waiting? && (f.aborted || f.retry.wakeAt <= now) then Attempt else Stay
    case ConfigurationReply(_, reply) => ConfigurationTurn(s, f, reply)
    case IndependentReply(_, extra) => IndependentTurn(s, f, extra)
    case _ => Stay
  }

  function Turned(s: Store, f: Flight, turn: Turn, now: int): Flight {
    match turn
    case Stay => f
    case Backed => if MayRetry(f.retry) then f.(phase := Waiting, retry := Backoff(f.retry, now)) else f
    case Again => Continued(s, f, now)
    case Attempt => Attempting(s, f.(retry := Woken(f.retry)))
    case Recover(failure) => f.(phase := Configuring(failure, s.step))
    case Ask(failure, configuration) =>
      f.(phase := Independent(failure, configuration, INDEPENDENT_SLICES * s.loaded,
                              if f.phase.Configuring? then f.phase.askedAt else 0, s.step))
    case Quit => f.(phase := Settling)
    case Publish(_, _, _) => f.(phase := Settling)
  }

  function Replied(s: Store, id: nat, e: Event, now: int): Store
    requires id in s.flights
  {
    Advanced(s, id, TurnOf(s, s.flights[id], e, now), now)
  }

  function Advanced(s: Store, id: nat, turn: Turn, now: int): Store
    requires id in s.flights
  {
    s.(flights := s.flights[id := Turned(s, s.flights[id], turn, now)],
       shown := if turn.Publish? then turn.shown else s.shown,
       force := s.force && !(turn.Publish? && turn.full))
  }

  // The `finally` of the flight: callers that waited for it go on, and it makes way if it is current.
  function Settled(s: Store, id: nat): Store
    requires id in s.flights
  {
    s.(flights := s.flights[id := s.flights[id].(phase := Done)],
       inFlight := if s.inFlight == Some(id) then None else s.inFlight)
  }

  function LeaseEffect(s: Store, e: Event): Store {
    match e
    case Resolve(l, ok) => Resolved(s, l, ok)
    case Renew(l) =>
      if l in s.leases && s.leases[l].holding.Held?
      then s.(leases := s.leases[l := s.leases[l].(timed := true)]) else s
    case Expire(l) => if l in s.leases && s.leases[l].timed then LeaseDisposed(s, l) else s
    case DisposeLease(l) => LeaseDisposed(s, l)
    case DisposeStore => StoreDisposed(s)
    case _ => s
  }

  function FlightEffect(s: Store, e: Event, now: int): Store {
    match e
    case SnapshotReply(f, _) => if f in s.flights then Replied(s, f, e, now) else s
    case Wake(f) => if f in s.flights then Replied(s, f, e, now) else s
    case ConfigurationReply(f, _) => if f in s.flights then Replied(s, f, e, now) else s
    case IndependentReply(f, _) => if f in s.flights then Replied(s, f, e, now) else s
    case Settle(f) => if f in s.flights && s.flights[f].phase.Settling? then Settled(s, f) else s
    case _ => s
  }

  predicate OfFlight(e: Event) {
    e.SnapshotReply? || e.Wake? || e.ConfigurationReply? || e.IndependentReply? || e.Settle?
  }

  predicate OfLease(e: Event) {
    e.Resolve? || e.Renew? || e.Expire? || e.DisposeLease? || e.DisposeStore?
  }

  function RequestEffect(s: Store, e: Event, now: int): Store {
    match e
    case Refresh(changed) => Refreshed(s, changed, now)
    case Ensure(slices) => Ensured(s, slices, now)
    case Acquire(slices, timed) => if slices == {} then s else Acquired(s, slices, timed, now)
    case Prime(cached) => Primed(s, cached)
    case Move(cached) => Moved(s, cached)
    case _ => s
  }

  function Effect(s: Store, e: Event, now: int): Store {
    if OfFlight(e) then FlightEffect(s, e, now)
    else if OfLease(e) then LeaseEffect(s, e)
    else RequestEffect(s, e, now)
  }

  function Step(s: Store, e: Event, now: int): Store {
    var after := Effect(s, e, now);
    after.(step := s.step + 1)
  }

  datatype Timed = Timed(event: Event, now: int)

  function Run(events: seq<Timed>): Store {
    if events == [] then EMPTY_STORE
    else Step(Run(events[..|events| - 1]), events[|events| - 1].event, events[|events| - 1].now)
  }

  // ---- What every step keeps ----

  ghost predicate FlightOk(id: nat, f: Flight, inFlight: Option<nat>, generation: nat, disposed: bool, n: nat) {
    && f.startedIn <= f.generation <= generation
    && 1 <= f.iterations <= 1 + f.generation - f.startedIn
    && id <= f.begunAt <= f.readAt < n
    && f.retry.attempt <= 3 && (f.phase.Waiting? ==> f.retry.attempt < 3)
    && (Looping(f) && inFlight != Some(id) ==> f.aborted && f.generation < generation)
    && (f.aborted ==> disposed || inFlight != Some(id))
  }

  ghost predicate FlightsOk(flights: map<nat, Flight>, inFlight: Option<nat>, generation: nat, disposed: bool, n: nat) {
    && (inFlight.Some? ==> inFlight.value in flights && !flights[inFlight.value].phase.Done?)
    && forall id | id in flights :: FlightOk(id, flights[id], inFlight, generation, disposed, n)
  }

  // The one flight whose answer would be published.
  ghost predicate Current(s: Store, id: nat) {
    id in s.flights && Looping(s.flights[id]) && s.flights[id].generation == s.generation
  }

  // An attempt that is still current asks for all that is loaded, does not settle for a receipt when a
  // full answer is owed, and holds the receipt of what is shown unless a payload was dropped since.
  ghost predicate AttemptOk(f: Flight, shown: Shown, loaded: set<Slice>, force: bool, disposed: bool) {
    && (!disposed ==> loaded <= f.slices && (force ==> f.receipt.None?))
    && (f.receipt.Some? ==>
          && shown.snapshot.Some?
          && (Subject(shown.snapshot.value) == f.receipt <==> shown.droppedAt <= f.readAt))
  }

  ghost predicate CurrentOk(s: Store) {
    s.inFlight.Some? && Current(s, s.inFlight.value) ==>
      var f := s.flights[s.inFlight.value];
      && f.readIn == s.moves
      && (f.phase.Reading? ==> AttemptOk(f, s.shown, s.loaded, s.force, s.disposed))
  }

  // Nothing shown was read before the last move, and the spinner turns while the loop runs.
  ghost predicate ShownOk(s: Store, n: nat) {
    && s.shown.droppedAt <= n
    && (s.shown.snapshot.Some? ==> s.shown.readIn == s.moves)
    && (s.shown.error.Some? ==> s.shown.errorIn == s.moves)
    && (!s.disposed ==> (s.shown.loading <==>
          s.inFlight.Some? && s.inFlight.value in s.flights && Looping(s.flights[s.inFlight.value])))
  }

  // `n` bounds the names given out so far.
  ghost predicate RefreshOk(s: Store, n: nat) {
    && FlightsOk(s.flights, s.inFlight, s.generation, s.disposed, n)
    && CurrentOk(s)
    && ShownOk(s, n)
  }

  // When the loop takes each turn.
  ghost predicate Fits(s: Store, f: Flight, turn: Turn) {
    && (turn.Stay? || Looping(f))
    && (turn.Backed? ==> f.phase.Reading? && MayRetry(f.retry))
    && (turn.Again? ==> f.generation != s.generation)
    && (turn.Attempt? ==> f.phase.Waiting?)
    && (turn.Recover? || turn.Ask? || turn.Publish? ==> f.generation == s.generation)
    && (turn.Quit? ==> f.aborted || s.disposed)
    && (turn.Publish? ==>
          && !turn.shown.loading && turn.shown.droppedAt == s.shown.droppedAt
          && (turn.shown.readIn == f.readIn
              || (turn.shown.readIn == s.shown.readIn && (s.shown.snapshot.Some? || turn.shown.snapshot.None?)))
          && (turn.shown.error.None? || turn.shown.errorIn == f.readIn
              || (turn.shown.error == s.shown.error && turn.shown.errorIn == s.shown.errorIn)))
  }

  lemma TurnFits(s: Store, f: Flight, e: Event, now: int)
    ensures Fits(s, f, TurnOf(s, f, e, now))
  {}

  lemma TurnKeepsFlights(s: Store, id: nat, turn: Turn, now: int)
    requires id in s.flights && Fits(s, s.flights[id], turn) && (s.flights[id].phase.Done? ==> turn.Stay?)
    requires FlightsOk(s.flights, s.inFlight, s.generation, s.disposed, s.step)
    ensures FlightsOk(s.flights[id := Turned(s, s.flights[id], turn, now)],
                      s.inFlight, s.generation, s.disposed, s.step + 1)
  {}

  lemma TurnKeepsCurrent(s: Store, id: nat, turn: Turn, now: int)
    requires RefreshOk(s, s.step) && id in s.flights && Fits(s, s.flights[id], turn)
    ensures CurrentOk(Advanced(s, id, turn, now))
  {}

  lemma TurnKeepsShown(s: Store, id: nat, turn: Turn, now: int)
    requires RefreshOk(s, s.step) && id in s.flights && Fits(s, s.flights[id], turn)
    ensures ShownOk(Advanced(s, id, turn, now), s.step + 1)
  {}

  lemma TurnKeeps(s: Store, id: nat, e: Event, now: int)
    requires RefreshOk(s, s.step) && id in s.flights
    ensures RefreshOk(Replied(s, id, e, now), s.step + 1)
  {
    hide TurnOf, CurrentOk, ShownOk, FlightsOk, Turned;
    var turn := TurnOf(s, s.flights[id], e, now);
    TurnFits(s, s.flights[id], e, now);
    TurnKeepsFlights(s, id, turn, now);
    TurnKeepsCurrent(s, id, turn, now);
    TurnKeepsShown(s, id, turn, now);
  }

  lemma SettleKeeps(s: Store, id: nat)
    requires RefreshOk(s, s.step) && id in s.flights && s.flights[id].phase.Settling?
    ensures RefreshOk(Settled(s, id), s.step + 1)
  {}

  lemma RefreshedKeeps(s: Store, changed: bool, now: int)
    requires RefreshOk(s, s.step)
    ensures RefreshOk(Refreshed(s, changed, now), s.step + 1)
  {}

  lemma EnsuredKeeps(s: Store, slices: set<Slice>, now: int)
    requires RefreshOk(s, s.step)
    ensures RefreshOk(Ensured(s, slices, now), s.step + 1)
  {
    if Asks(s, slices) && !Adds(s, slices) {
      assert Loading(s, slices) == s;
      RefreshedKeeps(s, false, now);
    }
  }

  lemma PrimedKeeps(s: Store, cached: Option<Snapshot>)
    requires RefreshOk(s, s.step)
    ensures RefreshOk(Primed(s, cached), s.step + 1)
  {
    hide WithoutEphemeral;
  }

  lemma MovedKeeps(s: Store, cached: Option<Snapshot>)
    requires RefreshOk(s, s.step)
    ensures RefreshOk(Moved(s, cached), s.step + 1)
  {}

  // ---- Leases ----

  // Who holds a slice: leases that are live or still being acquired.
  function Holders(leases: map<nat, Lease>, x: Slice): set<nat> {
    set l | l in leases && !leases[l].holding.Returned? && x in leases[l].slices
  }

  ghost predicate CountsOk(counts: map<Slice, nat>, leases: map<nat, Lease>) {
    forall x: Slice :: CountOf(counts, x) == |Holders(leases, x)| && (x in counts ==> 0 < counts[x])
  }

  ghost predicate LeasesOk(s: Store, n: nat) {
    && CountsOk(s.counts, s.leases)
    && CORE_SNAPSHOT_SLICES <= s.loaded && s.counts.Keys <= s.loaded
    && (forall l | l in s.leases :: l < n)
    && (forall l :: l in s.disposers <==> l in s.leases && s.leases[l].holding.Held?)
  }

  lemma TakenCounts(counts: map<Slice, nat>, leases: map<nat, Lease>, l: nat, lease: Lease)
    requires CountsOk(counts, leases) && l !in leases && !lease.holding.Returned?
    ensures CountsOk(Taken(counts, lease.slices), leases[l := lease])
  {
    forall x: Slice
      ensures CountOf(Taken(counts, lease.slices), x) == |Holders(leases[l := lease], x)|
      ensures x in Taken(counts, lease.slices) ==> 0 < Taken(counts, lease.slices)[x]
    {
      TakenHolders(leases, l, lease, x);
      assert CountOf(counts, x) == |Holders(leases, x)|;
    }
  }

  lemma TakenHolders(leases: map<nat, Lease>, l: nat, lease: Lease, x: Slice)
    requires l !in leases && !lease.holding.Returned?
    ensures |Holders(leases[l := lease], x)| == |Holders(leases, x)| + (if x in lease.slices then 1 else 0)
  {
    assert Holders(leases[l := lease], x) == Holders(leases, x) + (if x in lease.slices then {l} else {});
  }

  lemma DroppedCounts(counts: map<Slice, nat>, leases: map<nat, Lease>, l: nat, lease: Lease)
    requires CountsOk(counts, leases) && l in leases && !leases[l].holding.Returned?
    requires lease.holding.Returned? && lease.slices == leases[l].slices
    ensures CountsOk(Dropped(counts, lease.slices), leases[l := lease])
  {
    forall x: Slice
      ensures CountOf(Dropped(counts, lease.slices), x) == |Holders(leases[l := lease], x)|
      ensures x in Dropped(counts, lease.slices) ==> 0 < Dropped(counts, lease.slices)[x]
    {
      DroppedHolders(leases, l, lease, x);
      assert CountOf(counts, x) == |Holders(leases, x)|;
    }
  }

  lemma DroppedHolders(leases: map<nat, Lease>, l: nat, lease: Lease, x: Slice)
    requires l in leases && !leases[l].holding.Returned? && lease.holding.Returned? && lease.slices == leases[l].slices
    ensures |Holders(leases, x)| == |Holders(leases[l := lease], x)| + (if x in lease.slices then 1 else 0)
  {
    assert Holders(leases[l := lease], x) == Holders(leases, x) - (if x in lease.slices then {l} else {});
    assert x in lease.slices ==> l in Holders(leases, x);
  }

  lemma HeldCounts(counts: map<Slice, nat>, leases: map<nat, Lease>, l: nat, lease: Lease)
    requires CountsOk(counts, leases) && l in leases && lease.slices == leases[l].slices
    requires lease.holding.Returned? <==> leases[l].holding.Returned?
    ensures CountsOk(counts, leases[l := lease])
  {
    forall x: Slice ensures Holders(leases[l := lease], x) == Holders(leases, x) {}
  }

  lemma {:induction false} Removing(order: seq<nat>, l: nat, k: nat)
    ensures k in Remove(order, l) <==> k in order && k != l
  {
    if order != [] {
      Removing(order[..|order| - 1], l, k);
      assert order == order[..|order| - 1] + [order[|order| - 1]];
    }
  }

  lemma ReleasedKeepsLoaded(s: Store, slices: set<Slice>)
    requires CORE_SNAPSHOT_SLICES <= s.loaded && s.counts.Keys <= s.loaded
    ensures var g := Released(s, slices); CORE_SNAPSHOT_SLICES <= g.loaded && g.counts.Keys <= g.loaded
  {}

  lemma ReturnKeeps(s: Store, l: nat, n: nat)
    requires LeasesOk(s, n) && l in s.leases && !s.leases[l].holding.Returned?
    ensures LeasesOk(Return(s, l), n)
  {
    hide CountsOk, Dropped, Freed, Remove, WithoutPayloads, PayloadsOf;
    var lease := s.leases[l].(holding := Returned, timed := false);
    DroppedCounts(s.counts, s.leases, l, lease);
    ReleasedKeepsLoaded(s.(leases := s.leases[l := lease], disposers := Remove(s.disposers, l)), s.leases[l].slices);
    forall k ensures k in Remove(s.disposers, l) <==> k in s.disposers && k != l { Removing(s.disposers, l, k); }
  }

  lemma AcquiredKeepsLeases(s: Store, slices: set<Slice>, timed: bool, now: int)
    requires LeasesOk(s, s.step)
    ensures LeasesOk(Acquired(s, slices, timed, now), s.step + 1)
  {
    hide CountsOk, Refreshed;
    TakenCounts(s.counts, s.leases, s.step, Lease(slices, Pending(AwaitedFor(s, slices)), timed));
    EnsuredLoads(s, slices, now);
    assert Taken(s.counts, slices).Keys == s.counts.Keys + slices;
  }

  lemma EnsuredLoads(s: Store, slices: set<Slice>, now: int)
    ensures var g := Ensured(s, slices, now);
      g.loaded == s.loaded + slices && g.disposers == s.disposers && g.counts == s.counts && g.leases == s.leases
  {}

  lemma ResolvedKeepsLeases(s: Store, l: nat, ok: bool, n: nat)
    requires LeasesOk(s, n)
    ensures LeasesOk(Resolved(s, l, ok), n)
  {
    hide CountsOk, Return;
    if Resolvable(s, l) {
      if ok {
        HeldCounts(s.counts, s.leases, l, s.leases[l].(holding := Held));
      } else {
        ReturnKeeps(s, l, n);
      }
    }
  }

  lemma {:induction false} AllDisposedKeepsLeases(s: Store, order: seq<nat>, n: nat)
    requires LeasesOk(s, n)
    ensures LeasesOk(AllDisposed(s, order), n)
  {
    hide LeasesOk, Return;
    if order != [] {
      var front := AllDisposed(s, order[..|order| - 1]);
      AllDisposedKeepsLeases(s, order[..|order| - 1], n);
      var l := order[|order| - 1];
      if l in front.leases && front.leases[l].holding.Held? { ReturnKeeps(front, l, n); }
    }
  }

  lemma ReturnKeepsRefresh(s: Store, l: nat)
    requires RefreshOk(s, s.step + 1) && l in s.leases
    ensures RefreshOk(Return(s, l), s.step + 1) && Return(s, l).step == s.step
  {}

  lemma {:induction false} AllDisposedKeepsRefresh(s: Store, order: seq<nat>)
    requires RefreshOk(s, s.step + 1)
    ensures RefreshOk(AllDisposed(s, order), s.step + 1) && AllDisposed(s, order).step == s.step
  {
    hide RefreshOk, Return;
    if order != [] {
      var front := AllDisposed(s, order[..|order| - 1]);
      AllDisposedKeepsRefresh(s, order[..|order| - 1]);
      var l := order[|order| - 1];
      if l in front.leases { ReturnKeepsRefresh(front, l); }
    }
  }

  lemma DisposingKeepsRefresh(s: Store)
    requires RefreshOk(s, s.step)
    ensures RefreshOk(s.(disposed := true, flights := Aborting(s.flights, s.inFlight)), s.step + 1)
  {}

  lemma RefreshOkGrows(s: Store, n: nat)
    requires RefreshOk(s, n)
    ensures RefreshOk(s, n + 1)
  {}

  lemma LeaseKeepsRefresh(s: Store, e: Event)
    requires RefreshOk(s, s.step) && OfLease(e)
    ensures RefreshOk(LeaseEffect(s, e), s.step + 1)
  {
    RefreshOkGrows(s, s.step);
    match e
    case Resolve(l, ok) =>
      if Resolvable(s, l) && !ok { ReturnKeepsRefresh(s, l); }
    case Renew(l) =>
    case Expire(l) => if l in s.leases { ReturnKeepsRefresh(s, l); }
    case DisposeLease(l) => if l in s.leases { ReturnKeepsRefresh(s, l); }
    case DisposeStore =>
      DisposingKeepsRefresh(s);
      AllDisposedKeepsRefresh(s.(disposed := true, flights := Aborting(s.flights, s.inFlight)), s.disposers);
  }

  lemma DisposingKeepsLeases(s: Store)
    requires LeasesOk(s, s.step)
    ensures LeasesOk(StoreDisposed(s), s.step)
  {
    hide CountsOk, AllDisposed, Aborting;
    AllDisposedKeepsLeases(s.(disposed := true, flights := Aborting(s.flights, s.inFlight)), s.disposers, s.step);
  }

  lemma LeasesOkGrows(s: Store, n: nat)
    requires LeasesOk(s, n)
    ensures LeasesOk(s, n + 1)
  {}

  lemma LeaseKeepsLeases(s: Store, e: Event)
    requires LeasesOk(s, s.step) && OfLease(e)
    ensures LeasesOk(LeaseEffect(s, e), s.step)
  {
    hide CountsOk, Return, StoreDisposed, Resolved;
    match e
    case Resolve(l, ok) => ResolvedKeepsLeases(s, l, ok, s.step);
    case Renew(l) =>
      if l in s.leases { HeldCounts(s.counts, s.leases, l, s.leases[l].(timed := true)); }
    case Expire(l) => if l in s.leases && s.leases[l].holding.Held? { ReturnKeeps(s, l, s.step); }
    case DisposeLease(l) => if l in s.leases && s.leases[l].holding.Held? { ReturnKeeps(s, l, s.step); }
    case DisposeStore => DisposingKeepsLeases(s);
  }

  lemma FlightKeeps(s: Store, e: Event, now: int)
    requires RefreshOk(s, s.step) && LeasesOk(s, s.step) && OfFlight(e)
    ensures var g := FlightEffect(s, e, now); RefreshOk(g, s.step + 1) && LeasesOk(g, s.step + 1)
  {
    hide RefreshOk, TurnOf, Turned, CountsOk;
    RefreshOkGrows(s, s.step);
    match e
    case SnapshotReply(f, _) => if f in s.flights { TurnKeeps(s, f, e, now); }
    case Wake(f) => if f in s.flights { TurnKeeps(s, f, e, now); }
    case ConfigurationReply(f, _) => if f in s.flights { TurnKeeps(s, f, e, now); }
    case IndependentReply(f, _) => if f in s.flights { TurnKeeps(s, f, e, now); }
    case Settle(f) => if f in s.flights && s.flights[f].phase.Settling? { SettleKeeps(s, f); }
  }

  lemma AcquiredKeepsRefresh(s: Store, slices: set<Slice>, timed: bool, now: int)
    requires RefreshOk(s, s.step)
    ensures RefreshOk(Acquired(s, slices, timed, now), s.step + 1)
  {
    hide Ensured, AttemptOk, FlightsOk;
    EnsuredKeeps(s, slices, now);
  }

  lemma RequestKeeps(s: Store, e: Event, now: int)
    requires RefreshOk(s, s.step) && LeasesOk(s, s.step) && !OfFlight(e) && !OfLease(e)
    ensures var g := RequestEffect(s, e, now); RefreshOk(g, s.step + 1) && LeasesOk(g, s.step + 1)
  {
    hide RefreshOk, CountsOk, Refreshed, WithoutEphemeral;
    match e
    case Refresh(changed) => RefreshedKeeps(s, changed, now); RefreshedLeases(s, changed, now);
    case Ensure(slices) => EnsuredKeeps(s, slices, now); EnsuredLoads(s, slices, now);
    case Acquire(slices, timed) =>
      RefreshOkGrows(s, s.step);
      AcquiredKeepsRefresh(s, slices, timed, now);
      AcquiredKeepsLeases(s, slices, timed, now);
    case Prime(cached) => PrimedKeeps(s, cached);
    case Move(cached) => MovedKeeps(s, cached);
  }

  lemma RefreshedLeases(s: Store, changed: bool, now: int)
    ensures var g := Refreshed(s, changed, now);
      g.loaded == s.loaded && g.disposers == s.disposers && g.counts == s.counts && g.leases == s.leases
  {}

  lemma StepKeeps(s: Store, e: Event, now: int)
    requires RefreshOk(s, s.step) && LeasesOk(s, s.step)
    ensures RefreshOk(Step(s, e, now), s.step + 1) && LeasesOk(Step(s, e, now), s.step + 1)
  {
    hide FlightEffect, LeaseEffect, RequestEffect, AttemptOk, FlightsOk, CountsOk;
    if OfFlight(e) {
      FlightKeeps(s, e, now);
    } else if OfLease(e) {
      LeaseKeepsRefresh(s, e);
      LeaseKeepsLeases(s, e);
      LeasesOkGrows(LeaseEffect(s, e), s.step);
    } else {
      RequestKeeps(s, e, now);
    }
  }

  // The invariant of the store, over every run.
  lemma {:induction false} StoreInvariant(events: seq<Timed>)
    ensures Run(events).step == |events|
    ensures RefreshOk(Run(events), |events|) && LeasesOk(Run(events), |events|)
  {
    hide RefreshOk, LeasesOk, Effect;
    if events == [] {
      EmptyIsOk();
    } else {
      StoreInvariant(events[..|events| - 1]);
      StepKeeps(Run(events[..|events| - 1]), events[|events| - 1].event, events[|events| - 1].now);
    }
  }

  lemma EmptyIsOk()
    ensures RefreshOk(EMPTY_STORE, 0) && LeasesOk(EMPTY_STORE, 0)
  {}
}
