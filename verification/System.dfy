// The window as a whole: the workspace store reads through one of the clients that share the hub, and
// writes of the same checkout come from anywhere. Hub and store advance together: a tick is one event
// of each, either of which may be idle (Idle for the hub, Prime(None) for the store).
module Systems {
  import S = Snapshots
  import H = ReadHubs
  import W = WorkspaceStores
  import R = StoreRuns
  import opened Wrappers

  datatype Tick = Tick(hub: H.Event, store: W.Timed)

  function HubEvents(run: seq<Tick>): seq<H.Event> {
    seq(|run|, i requires 0 <= i < |run| => run[i].hub)
  }

  function StoreEvents(run: seq<Tick>): seq<W.Timed> {
    seq(|run|, i requires 0 <= i < |run| => run[i].store)
  }

  function HubAt(run: seq<Tick>, k: nat): H.Hub
    requires k <= |run|
  {
    H.Run(HubEvents(run)[..k])
  }

  function StoreAt(run: seq<Tick>, k: nat): W.Store
    requires k <= |run|
  {
    W.Run(StoreEvents(run)[..k])
  }

  // Client `c` asks the hub for a read in tick `k`.
  ghost predicate AsksHub(run: seq<Tick>, c: nat, k: nat)
    requires k < |run|
  {
    run[k].hub.Request? && run[k].hub.client == c && c in HubAt(run, k).clients
  }

  // The store's refresh loop begins an attempt in tick `k`.
  ghost predicate BeginsAttempt(run: seq<Tick>, k: nat)
    requires k < |run|
  {
    R.Attempts(StoreAt(run, k + 1), k)
  }

  // A recovery asks for the configuration inventory, or for the leased independent slices, in tick `k`.
  ghost predicate BeginsRecovery(run: seq<Tick>, k: nat)
    requires k < |run|
  {
    SomeoneAsks(StoreAt(run, k + 1), k)
  }

  ghost predicate SomeoneAsks(s: W.Store, k: nat) {
    exists id :: id in s.flights && Asking(s.flights[id].phase, k)
  }

  predicate Asking(phase: W.Phase, k: nat) {
    (phase.Configuring? && phase.askedAt == k) || (phase.Independent? && phase.askedAt == k && phase.leased != {})
  }

  ghost predicate BeginsRead(run: seq<Tick>, k: nat)
    requires k < |run|
  {
    BeginsAttempt(run, k) || BeginsRecovery(run, k)
  }

  // Every read of the store is a read of client `c`, requested in the same turn.
  ghost predicate ReadsThrough(run: seq<Tick>, c: nat) {
    forall k: nat | k < |run| && BeginsRead(run, k) :: AsksHub(run, c, k)
  }

  // How the hub answers the read that client `c` requests in tick `k`.
  ghost function HubAnswer(run: seq<Tick>, c: nat, k: nat): H.Outcome
    requires k < |run| && AsksHub(run, c, k)
  {
    var asked := run[k].hub;
    H.Answer(HubAt(run, k), c, asked.request, asked.cacheable, asked.aborted, asked.now)
  }

  // When the data that answers the read requested in tick `k` was itself requested: by a cached entry's
  // read, by the job that was joined, or now.
  ghost function RequestedAt(run: seq<Tick>, c: nat, k: nat): nat
    requires k < |run| && AsksHub(run, c, k)
  {
    match HubAnswer(run, c, k)
    case Hit(_, requestedAt, _) => requestedAt
    case Joined(job) => job
    case Fresh(job) => job
    case Refused => k
  }

  // ---- What the hub returns is what the store is answered ----

  // Job `j`, named by the tick that requested it, returned `value` in tick `d`.
  ghost predicate Returned(run: seq<Tick>, j: nat, d: nat, value: nat) {
    d < |run| && run[d].hub.Complete? && run[d].hub.job == j && run[d].hub.value == Some(value)
  }

  // The snapshot is what job `j` returned after tick `a`, by tick `k`. `decode` reads the CLI's output.
  ghost predicate Carries(run: seq<Tick>, decode: nat -> S.Snapshot, j: nat, a: nat, k: nat, snapshot: S.Snapshot) {
    exists d, value :: a < d <= k && Returned(run, j, d, value) && snapshot == decode(value)
  }

  lemma CarriesOn(run: seq<Tick>, decode: nat -> S.Snapshot, j: nat, a: nat, m: nat, k: nat, snapshot: S.Snapshot)
    requires Carries(run, decode, j, a, m, snapshot) && m <= k
    ensures Carries(run, decode, j, a, k, snapshot)
  {
    hide Returned;
    var d, value :| a < d <= m && Returned(run, j, d, value) && snapshot == decode(value);
  }

  // In tick `k` the read that the store asked for in tick `a` is answered with `snapshot`.
  ghost predicate Answers(run: seq<Tick>, k: nat, a: nat, snapshot: S.Snapshot)
    requires k < |run|
  {
    var s, e := StoreAt(run, k), run[k].store.event;
    W.OfFlight(e) && e.flight in s.flights &&
    var phase := s.flights[e.flight].phase;
    match e
    case SnapshotReply(id, Answer(answer)) => phase.Reading? && a == s.flights[id].readAt && snapshot == answer
    case ConfigurationReply(_, Answer(answer)) => phase.Configuring? && a == phase.askedAt && snapshot == answer
    case IndependentReply(_, Some(answer)) =>
      phase.Independent? && phase.leased != {} && a == phase.askedAt && snapshot == answer
    case _ => false
  }

  ghost predicate AnsweredByHub(run: seq<Tick>, c: nat, decode: nat -> S.Snapshot, k: nat, a: nat, snapshot: S.Snapshot)
    requires k < |run|
  {
    a < k && AsksHub(run, c, a) ==>
      match HubAnswer(run, c, a)
      case Hit(value, _, _) => snapshot == decode(value)
      case Joined(job) => Carries(run, decode, job, a, k, snapshot)
      case Fresh(job) => Carries(run, decode, job, a, k, snapshot)
      case Refused => false
  }

  // Reads are answered with the cached value, or with what the job they wait on returns.
  ghost predicate AnswersThrough(run: seq<Tick>, c: nat, decode: nat -> S.Snapshot) {
    forall k: nat, a: nat, snapshot: S.Snapshot | k < |run| && Answers(run, k, a, snapshot) ::
      AnsweredByHub(run, c, decode, k, a, snapshot)
  }

  // A mutation of the checkout that client `c` reads in tick `k` began or settled in tick `i`.
  ghost predicate WroteFor(run: seq<Tick>, c: nat, i: nat, k: nat)
    requires i < k < |run|
  {
    c in HubAt(run, k).clients && H.Fences(HubAt(run, i), run[i].hub, HubAt(run, k).clients[c].repository)
  }

  lemma ReadsSeeEarlierWrites(run: seq<Tick>, c: nat, i: nat, k: nat)
    requires i < k < |run| && AsksHub(run, c, k) && WroteFor(run, c, i, k)
    ensures i < RequestedAt(run, c, k)
  {
    H.ReadYourWrites(HubEvents(run), i, k);
  }

  lemma AttemptsAreAsked(run: seq<Tick>, c: nat, k: nat, id: nat)
    requires ReadsThrough(run, c) && k <= |run| && id in StoreAt(run, k).flights
    ensures var f := StoreAt(run, k).flights[id];
      f.begunAt <= f.readAt < k && AsksHub(run, c, f.readAt)
  {
    hide W.Run, H.Run;
    AttemptIsBegun(run, k, id);
  }

  lemma AttemptIsBegun(run: seq<Tick>, k: nat, id: nat)
    requires k <= |run| && id in StoreAt(run, k).flights
    ensures var f := StoreAt(run, k).flights[id];
      f.begunAt <= f.readAt < k && BeginsRead(run, f.readAt)
  {
    hide W.Run, R.Began, R.Read, R.Attempts;
    var events := StoreEvents(run)[..k];
    R.FlightsRemember(events, id);
    R.AttemptIsThere(events, id);
    var at := W.Run(events).flights[id].readAt;
    assert events[..at + 1] == StoreEvents(run)[..at + 1];
  }

  // What a recovery remembers when it is answered, or publishes, in tick `k`.
  ghost predicate RecoveryAsked(run: seq<Tick>, c: nat, k: nat, f: W.Flight)
    requires k <= |run| && R.Recovering(f)
  {
    && f.readAt < f.phase.askedAt < k
    && (f.phase.Configuring? || f.phase.leased != {} ==> AsksHub(run, c, f.phase.askedAt))
    && (f.phase.Independent? ==>
          && f.readAt < f.phase.configuredAt < f.phase.askedAt && AsksHub(run, c, f.phase.configuredAt)
          && Answers(run, f.phase.askedAt, f.phase.configuredAt, f.phase.configuration))
  }

  lemma RecoveryReadIsAsked(run: seq<Tick>, c: nat, k: nat, id: nat)
    requires ReadsThrough(run, c) && k <= |run| && id in StoreAt(run, k).flights
    requires R.Recovering(StoreAt(run, k).flights[id])
    ensures var f := StoreAt(run, k).flights[id];
      && f.readAt < f.phase.askedAt < k && R.Dated(StoreEvents(run)[..k], id, f)
      && (f.phase.Configuring? || f.phase.leased != {} ==> AsksHub(run, c, f.phase.askedAt))
  {
    hide W.Run, H.Run;
    var events := StoreEvents(run)[..k];
    R.RecoveryIsDated(events, id);
    var f := StoreAt(run, k).flights[id];
    assert events[..f.phase.askedAt + 1] == StoreEvents(run)[..f.phase.askedAt + 1];
    if f.phase.Configuring? || f.phase.leased != {} {
      assert Asking(StoreAt(run, f.phase.askedAt + 1).flights[id].phase, f.phase.askedAt);
      assert BeginsRead(run, f.phase.askedAt);
    }
  }

  lemma InventoryIsAnswered(run: seq<Tick>, k: nat, id: nat)
    requires k <= |run| && id in StoreAt(run, k).flights && StoreAt(run, k).flights[id].phase.Independent?
    requires R.Dated(StoreEvents(run)[..k], id, StoreAt(run, k).flights[id])
    ensures var phase := StoreAt(run, k).flights[id].phase;
      && phase.askedAt < k && id in StoreAt(run, phase.askedAt).flights
      && StoreAt(run, phase.askedAt).flights[id].phase == W.Configuring(phase.failure, phase.configuredAt)
      && StoreAt(run, phase.askedAt).flights[id].readAt == StoreAt(run, k).flights[id].readAt
      && Answers(run, phase.askedAt, phase.configuredAt, phase.configuration)
  {
    hide W.Run;
    var at := StoreAt(run, k).flights[id].phase.askedAt;
    assert StoreEvents(run)[..k][..at] == StoreEvents(run)[..at];
  }

  lemma RecoveriesAreAsked(run: seq<Tick>, c: nat, k: nat, id: nat)
    requires ReadsThrough(run, c) && k <= |run| && id in StoreAt(run, k).flights
    requires R.Recovering(StoreAt(run, k).flights[id])
    ensures RecoveryAsked(run, c, k, StoreAt(run, k).flights[id])
  {
    hide W.Run, H.Run, ReadsThrough, R.Dated, Answers, AsksHub;
    RecoveryReadIsAsked(run, c, k, id);
    if StoreAt(run, k).flights[id].phase.Independent? {
      InventoryIsAnswered(run, k, id);
      RecoveryReadIsAsked(run, c, StoreAt(run, k).flights[id].phase.askedAt, id);
    }
  }

  lemma AnsweredIsAsked(run: seq<Tick>, c: nat, k: nat, a: nat, snapshot: S.Snapshot)
    requires ReadsThrough(run, c) && k < |run| && Answers(run, k, a, snapshot)
    ensures a < k && AsksHub(run, c, a)
  {
    hide W.Run, H.Run, ReadsThrough, AsksHub;
    var id := run[k].store.event.flight;
    AttemptsAreAsked(run, c, k, id);
    if R.Recovering(StoreAt(run, k).flights[id]) { RecoveriesAreAsked(run, c, k, id); }
  }

  // The snapshot is what the job returned that answers the read asked for in tick `a`.
  ghost predicate ReadBy(run: seq<Tick>, c: nat, decode: nat -> S.Snapshot, k: nat, a: nat, snapshot: S.Snapshot) {
    && a < k <= |run| && AsksHub(run, c, a) && RequestedAt(run, c, a) <= a
    && Carries(run, decode, RequestedAt(run, c, a), RequestedAt(run, c, a), k, snapshot)
  }

  // What answers a read of the store is what one job returned, and that job is the one the answer dates from.
  lemma AnswersAreReturned(run: seq<Tick>, c: nat, decode: nat -> S.Snapshot, k: nat, a: nat, snapshot: S.Snapshot)
    requires ReadsThrough(run, c) && AnswersThrough(run, c, decode) && k < |run| && Answers(run, k, a, snapshot)
    ensures ReadBy(run, c, decode, k, a, snapshot)
  {
    hide W.Run, H.Run, H.Answer, Returned, Answers, ReadsThrough;
    AnsweredIsAsked(run, c, k, a, snapshot);
    assert AnsweredByHub(run, c, decode, k, a, snapshot);
    H.AnswersAreOfThisCheckout(HubEvents(run), a);
    if HubAnswer(run, c, a).Hit? {
      HitIsReturned(run, c, a);
    } else {
      var d, value :| a < d <= k && Returned(run, RequestedAt(run, c, a), d, value) && snapshot == decode(value);
    }
  }

  lemma HitIsReturned(run: seq<Tick>, c: nat, a: nat)
    requires a < |run| && AsksHub(run, c, a) && HubAnswer(run, c, a).Hit?
    ensures var answer := HubAnswer(run, c, a);
      answer.requestedAt < answer.completedAt < a && Returned(run, answer.requestedAt, answer.completedAt, answer.value)
  {
    hide H.Run, H.Answer;
    H.CacheHitProvenance(HubEvents(run), a);
  }

  // ---- What a publication is made of ----

  // The outcome of the read asked for in tick `a` goes into what is published in tick `k`: the attempt's, and
  // for a recovery its inventory's and its independent slices'.
  ghost predicate Uses(run: seq<Tick>, k: nat, a: nat)
    requires k < |run| && W.OfFlight(run[k].store.event) && run[k].store.event.flight in StoreAt(run, k).flights
  {
    var f := StoreAt(run, k).flights[run[k].store.event.flight];
    || a == f.readAt
    || (f.phase.Configuring? && a == f.phase.askedAt)
    || (f.phase.Independent? && (a == f.phase.configuredAt || (f.phase.leased != {} && a == f.phase.askedAt)))
  }

  // What the read asked for in tick `a` brought to it.
  ghost predicate Brings(run: seq<Tick>, k: nat, a: nat, snapshot: S.Snapshot)
    requires k < |run|
  {
    || Answers(run, k, a, snapshot)
    || (run[k].store.event.IndependentReply? && run[k].store.event.flight in StoreAt(run, k).flights
        && var phase := StoreAt(run, k).flights[run[k].store.event.flight].phase;
           phase.Independent? && a == phase.configuredAt && snapshot == phase.configuration)
  }

  // A publication shows the answer of its attempt, the receipt over what was shown, or the inventory with the
  // independent slices laid over it.
  lemma PublishedIsBrought(run: seq<Tick>, k: nat)
    requires k < |run| && R.Publishes(StoreAt(run, k), run[k].store.event, run[k].store.now)
    ensures var s, e, g := StoreAt(run, k), run[k].store.event, StoreAt(run, k + 1);
            var f := s.flights[e.flight];
      match e
      case SnapshotReply(_, Answer(answer)) =>
        && Brings(run, k, f.readAt, answer)
        && g.shown.snapshot == (if answer.notModified && s.shown.snapshot.Some?
                                then Some(S.Accept(s.shown.snapshot.value, answer)) else Some(answer))
      case IndependentReply(_, extra) =>
        && f.phase.Independent? && Brings(run, k, f.phase.configuredAt, f.phase.configuration)
        && (extra.Some? && f.phase.leased != {} ==> Brings(run, k, f.phase.askedAt, extra.value))
        && g.shown.snapshot == Some(W.Recovery(f.phase.configuration, f.phase.leased, extra))
      case _ => g.shown.snapshot == s.shown.snapshot
  {
    hide W.Run, W.Step, W.TurnOf, W.Turned, R.Publishes, S.Accept, W.Recovery;
    R.RunGoesOn(StoreEvents(run), k);
    PublishedSnapshot(StoreAt(run, k), run[k].store.event, run[k].store.now);
  }

  lemma PublishedSnapshot(s: W.Store, e: W.Event, now: int)
    requires R.Publishes(s, e, now)
    ensures W.OfFlight(e) && e.flight in s.flights
    ensures var g, f := W.Step(s, e, now), s.flights[e.flight];
      match e
      case SnapshotReply(_, Answer(answer)) =>
        f.phase.Reading? && g.shown.snapshot == (if answer.notModified && s.shown.snapshot.Some?
                                                 then Some(S.Accept(s.shown.snapshot.value, answer)) else Some(answer))
      case IndependentReply(_, extra) =>
        f.phase.Independent? && g.shown.snapshot == Some(W.Recovery(f.phase.configuration, f.phase.leased, extra))
      case _ => g.shown.snapshot == s.shown.snapshot
  {
    hide S.Accept, W.Recovery, S.ChangedSlices;
  }

  lemma UsedIsAsked(run: seq<Tick>, c: nat, k: nat, a: nat)
    requires ReadsThrough(run, c) && k < |run|
    requires W.OfFlight(run[k].store.event) && run[k].store.event.flight in StoreAt(run, k).flights && Uses(run, k, a)
    ensures StoreAt(run, k).flights[run[k].store.event.flight].readAt <= a < k && AsksHub(run, c, a)
  {
    hide W.Run, H.Run, ReadsThrough, AsksHub, Answers;
    var id := run[k].store.event.flight;
    AttemptsAreAsked(run, c, k, id);
    if R.Recovering(StoreAt(run, k).flights[id]) { RecoveriesAreAsked(run, c, k, id); }
  }

  lemma BroughtIsReturned(run: seq<Tick>, c: nat, decode: nat -> S.Snapshot, k: nat, a: nat, snapshot: S.Snapshot)
    requires ReadsThrough(run, c) && AnswersThrough(run, c, decode) && k < |run| && Brings(run, k, a, snapshot)
    ensures ReadBy(run, c, decode, k, a, snapshot)
  {
    hide W.Run, H.Run, ReadsThrough, AnswersThrough, AsksHub, Answers, Carries, RequestedAt;
    if Answers(run, k, a, snapshot) {
      AnswersAreReturned(run, c, decode, k, a, snapshot);
    } else {
      var id := run[k].store.event.flight;
      var at := StoreAt(run, k).flights[id].phase.askedAt;
      RecoveriesAreAsked(run, c, k, id);
      AnswersAreReturned(run, c, decode, at, a, snapshot);
      CarriesOn(run, decode, RequestedAt(run, c, a), RequestedAt(run, c, a), at, k, snapshot);
    }
  }

  // ---- Read your writes, from write to view ----

  // If a write of the checkout was followed by a changed refresh, every read whose outcome the store
  // publishes after that was requested after the write, the inventory and the independent slices of a
  // recovery included, and every snapshot it brings is what the job so requested returned: no stale one
  // reaches a view through the shared reads, any client's cache, or the refresh loop.
  lemma PublishedAfterAWriteIsReadAfterIt(run: seq<Tick>, c: nat, decode: nat -> S.Snapshot, i: nat, q: nat, k: nat)
    requires ReadsThrough(run, c) && AnswersThrough(run, c, decode) && i < q < k < |run|
    requires R.Supersedes(StoreAt(run, q), run[q].store.event)
    requires R.Publishes(StoreAt(run, k), run[k].store.event, run[k].store.now)
    requires var f := StoreAt(run, k).flights[run[k].store.event.flight];
             forall a: nat | f.readAt <= a < k && i < a && AsksHub(run, c, a) :: WroteFor(run, c, i, a)
    ensures var f := StoreAt(run, k).flights[run[k].store.event.flight];
      && W.OfFlight(run[k].store.event) && q <= f.begunAt <= f.readAt
      && (forall a: nat | Uses(run, k, a) ::
            f.readAt <= a < k && AsksHub(run, c, a) && i < RequestedAt(run, c, a))
      && (forall a: nat, snapshot: S.Snapshot | Brings(run, k, a, snapshot) :: ReadBy(run, c, decode, k, a, snapshot))
  {
    hide R.Supersedes, R.Publishes, W.Run, H.Run, RequestedAt, ReadsThrough, AnswersThrough;
    hide Uses, Brings, ReadBy, AsksHub;
    var events := StoreEvents(run);
    assert R.Supersedes(W.Run(events[..q]), events[q].event);
    R.PublicationSafety(events, k);
    PublishingFlight(StoreAt(run, k), run[k].store.event, run[k].store.now);
    AttemptsAreAsked(run, c, k, run[k].store.event.flight);
    var f := StoreAt(run, k).flights[run[k].store.event.flight];
    forall a: nat | Uses(run, k, a)
      ensures f.readAt <= a < k && AsksHub(run, c, a) && i < RequestedAt(run, c, a)
    {
      UsedIsAsked(run, c, k, a);
      ReadsSeeEarlierWrites(run, c, i, a);
    }
    forall a: nat, snapshot: S.Snapshot | Brings(run, k, a, snapshot) ensures ReadBy(run, c, decode, k, a, snapshot) {
      BroughtIsReturned(run, c, decode, k, a, snapshot);
    }
  }

  lemma PublishingFlight(s: W.Store, e: W.Event, now: int)
    requires R.Publishes(s, e, now)
    ensures W.OfFlight(e) && e.flight in s.flights
  {}

  // And such a read is made: when the flight that the changed refresh waits for has settled, its last
  // read was requested after the write, and the snapshot it was answered with, if any, is what the job so
  // requested returned, unless it was cut short by a move or by the window closing, or the refresh fell
  // into the settle gap of the loop before.
  lemma RefreshAfterAWriteReadsIt(run: seq<Tick>, c: nat, decode: nat -> S.Snapshot, i: nat, q: nat, id: nat)
    requires ReadsThrough(run, c) && AnswersThrough(run, c, decode) && i < q < |run|
    requires R.Asking(run[q].store.event) && R.Supersedes(StoreAt(run, q), run[q].store.event)
    requires StoreAt(run, q + 1).inFlight == Some(id) && !R.InSettleGap(StoreAt(run, q), id)
    requires var s := StoreAt(run, |run|);
             id in s.flights && !W.Looping(s.flights[id]) && !s.flights[id].aborted && !s.disposed
    requires var f := StoreAt(run, |run|).flights[id]; i < f.readAt < |run| ==> WroteFor(run, c, i, f.readAt)
    ensures var f := StoreAt(run, |run|).flights[id];
      && q <= f.begunAt <= f.readAt < |run| && AsksHub(run, c, f.readAt) && i < RequestedAt(run, c, f.readAt)
      && forall k: nat, snapshot: S.Snapshot | k < |run| && Answers(run, k, f.readAt, snapshot) ::
           ReadBy(run, c, decode, k, f.readAt, snapshot)
  {
    hide R.Supersedes, W.Run, H.Run, RequestedAt, AnswersThrough, ReadsThrough, Answers, ReadBy;
    var events := StoreEvents(run);
    assert events[..|run|] == events;
    R.RequestsAreFollowedUp(events, q, id);
    AttemptsAreAsked(run, c, |run|, id);
    var f := StoreAt(run, |run|).flights[id];
    ReadsSeeEarlierWrites(run, c, i, f.readAt);
    forall k: nat, snapshot: S.Snapshot | k < |run| && Answers(run, k, f.readAt, snapshot)
      ensures ReadBy(run, c, decode, k, f.readAt, snapshot)
    {
      AnswersAreReturned(run, c, decode, k, f.readAt, snapshot);
    }
  }

  // ---- Moving the window to another checkout ----

  // Client `c` is bound to another checkout only in the turn in which the store is told of the move.
  ghost predicate BoundTogether(run: seq<Tick>, c: nat) {
    forall k: nat | k < |run| && run[k].hub.Rebind? && run[k].hub.client == c :: run[k].store.event.Move?
  }

  ghost predicate BoundTo(run: seq<Tick>, c: nat, k: nat, repository: nat)
    requires k <= |run|
  {
    c in HubAt(run, k).clients && HubAt(run, k).clients[c].repository == repository
  }

  lemma StaysBound(run: seq<Tick>, c: nat, a: nat, k: nat)
    requires a <= k <= |run| && c in HubAt(run, a).clients
    requires forall m | a <= m < k :: !(run[m].hub.Rebind? && run[m].hub.client == c)
    ensures BoundTo(run, c, k, HubAt(run, a).clients[c].repository)
  {
    hide H.Run;
    var events := HubEvents(run)[..k];
    assert events[..a] == HubEvents(run)[..a];
    H.BindingStays(events, a, c);
  }

  // A move supersedes, so none falls between the start of an iteration and what it publishes.
  lemma NoMoveBeforePublication(run: seq<Tick>, k: nat, m: nat)
    requires k < |run| && R.Publishes(StoreAt(run, k), run[k].store.event, run[k].store.now)
    requires var f := StoreAt(run, k).flights[run[k].store.event.flight]; f.begunAt < m <= k
    ensures !run[m].store.event.Move?
  {
    hide R.Publishes, W.Run;
    var events := StoreEvents(run);
    R.PublicationSafety(events, k);
    PublishingFlight(StoreAt(run, k), run[k].store.event, run[k].store.now);
    if m < k { assert !R.Supersedes(W.Run(events[..m]), events[m].event); }
  }

  // Nothing that is published was read from another checkout than the one the window has then: from the
  // turn in which the attempt was made to the publication, the client stays bound to one checkout, and
  // what answers each read that goes into it, those of a recovery included, was requested as a read of that
  // checkout, whoever requested it.
  lemma PublishedIsOfThisCheckout(run: seq<Tick>, c: nat, k: nat)
    requires ReadsThrough(run, c) && BoundTogether(run, c) && k < |run|
    requires R.Publishes(StoreAt(run, k), run[k].store.event, run[k].store.now)
    ensures W.OfFlight(run[k].store.event)
    ensures var at := StoreAt(run, k).flights[run[k].store.event.flight].readAt;
      && at < k && AsksHub(run, c, at)
      && var repository := HubAt(run, at).clients[c].repository;
         && (forall m | at <= m <= k + 1 :: BoundTo(run, c, m, repository))
         && forall a: nat | Uses(run, k, a) ::
              && a < k && AsksHub(run, c, a)
              && (!HubAnswer(run, c, a).Refused? ==>
                    var j := RequestedAt(run, c, a);
                    && j <= a && run[j].hub.Request? && run[j].hub.request == run[a].hub.request
                    && BoundTo(run, run[j].hub.client, j, repository))
  {
    hide R.Publishes, W.Run, H.Run, H.Answer, ReadsThrough, Uses;
    PublishingFlight(StoreAt(run, k), run[k].store.event, run[k].store.now);
    var f := StoreAt(run, k).flights[run[k].store.event.flight];
    AttemptsAreAsked(run, c, k, run[k].store.event.flight);
    var repository := HubAt(run, f.readAt).clients[c].repository;
    forall m | f.readAt < m <= k ensures !run[m].store.event.Move? { NoMoveBeforePublication(run, k, m); }
    forall m | f.readAt <= m <= k + 1 ensures BoundTo(run, c, m, repository) { StaysBound(run, c, f.readAt, m); }
    forall a: nat | Uses(run, k, a)
      ensures a < k && AsksHub(run, c, a)
      ensures !HubAnswer(run, c, a).Refused? ==>
                var j := RequestedAt(run, c, a);
                && j <= a && run[j].hub.Request? && run[j].hub.request == run[a].hub.request
                && BoundTo(run, run[j].hub.client, j, repository)
    {
      UsedIsAsked(run, c, k, a);
      assert BoundTo(run, c, a, repository);
      if !HubAnswer(run, c, a).Refused? { RequesterIsBound(run, c, a); }
    }
  }

  lemma RequesterIsBound(run: seq<Tick>, c: nat, a: nat)
    requires a < |run| && AsksHub(run, c, a) && !HubAnswer(run, c, a).Refused?
    ensures var j := RequestedAt(run, c, a);
      && j <= a && run[j].hub.Request? && run[j].hub.request == run[a].hub.request
      && BoundTo(run, run[j].hub.client, j, HubAt(run, a).clients[c].repository)
  {
    hide H.Run, H.Answer;
    H.AnswersAreOfThisCheckout(HubEvents(run), a);
  }
}
