// Where the heavyweight payloads that the store shows come from, and when they outlive their leases.
module StorePayloads {
  import opened Snapshots
  import opened WorkspaceStores
  import opened StoreRuns
  import opened Wrappers

  // The last event that replaced what is shown: an answer, with the slices its read had asked for and when,
  // or the cache. `brought` are the payloads it showed.
  datatype Source =
    | Nothing
    | Answered(at: nat, readAt: nat, asked: set<Slice>, brought: set<Slice>)
    | Cached(at: nat, brought: set<Slice>)

  function Payloads(shown: Shown): set<Slice> {
    if shown.snapshot.Some? then shown.snapshot.value.payload.Keys else {}
  }

  // A read's answer is shown as it is; for a recovery that is the read of the independent slices.
  ghost predicate ShowsAnswer(s: Store, e: Event, now: int) {
    PublishesFull(s, e, now) || (Publishes(s, e, now) && e.IndependentReply?)
  }

  ghost function SourceAfter(s: Store, e: Event, now: int, before: Source): Source {
    var brought := Payloads(Step(s, e, now).shown);
    if ShowsAnswer(s, e, now) then
      var f := s.flights[e.flight];
      if e.IndependentReply? && f.phase.Independent? then Answered(s.step, f.phase.askedAt, f.phase.leased, brought)
      else Answered(s.step, f.readAt, f.slices, brought)
    else if Restores(s, e) then Cached(s.step, brought)
    else if e.Move? then Nothing
    else before
  }

  ghost function SourceOf(events: seq<Timed>): Source {
    if events == [] then Nothing
    else
      var front, last := events[..|events| - 1], events[|events| - 1];
      SourceAfter(Run(front), last.event, last.now, SourceOf(front))
  }

  // One more than the index of the event in which the last lease on `x` ended last; 0 if none has.
  ghost function FreedAt(events: seq<Timed>, x: Slice): (at: nat)
    ensures at <= |events|
  {
    if events == [] then 0
    else if x in Run(events[..|events| - 1]).loaded && x !in Run(events).loaded then |events|
    else FreedAt(events[..|events| - 1], x)
  }

  // ---- What one event does to a payload ----

  // The payload of `x` goes with the slice and with nothing else.
  ghost predicate GoesAlong(s: Store, g: Store, x: Slice) {
    && g.loaded <= s.loaded
    && (x in Payloads(g.shown) <==> x in Payloads(s.shown) && !(x in s.loaded && x !in g.loaded))
  }

  lemma FreedLosePayloads(shown: Shown, freed: set<Slice>, droppedAt: nat, x: Slice)
    requires x in DEDICATED_SLICES
    ensures x in Payloads(shown.(snapshot := WithoutPayloads(shown.snapshot, PayloadsOf(shown, freed)),
                                 droppedAt := droppedAt)) <==>
            x in Payloads(shown) && x !in freed
  {
    hide Keep;
    var payloads := PayloadsOf(shown, freed);
    assert x in payloads <==> x in freed && x in Payloads(shown);
    if shown.snapshot.Some? {
      var snapshot := shown.snapshot.value;
      assert x in Without(snapshot, payloads).payload <==> x in snapshot.payload && x !in payloads;
    }
  }

  lemma FreedIsLoaded(s: Store, l: nat, x: Slice, n: nat)
    requires LeasesOk(s, n) && l in s.leases && !s.leases[l].holding.Returned?
    ensures x in Freed(s.counts, s.leases[l].slices) ==> x in s.loaded
  {
    CountIs(s.counts, s.leases, x);
    if x in s.leases[l].slices { assert l in Holders(s.leases, x); }
  }

  lemma ReturnGoesAlong(s: Store, l: nat, x: Slice, n: nat)
    requires LeasesOk(s, n) && l in s.leases && !s.leases[l].holding.Returned? && x in DEDICATED_SLICES
    ensures GoesAlong(s, Return(s, l), x)
  {
    hide Remove, WorkspaceStores.Dropped, CountsOk, Freed, PayloadsOf, WithoutPayloads, Payloads;
    var freed := Freed(s.counts, s.leases[l].slices);
    FreedIsLoaded(s, l, x, n);
    FreedLosePayloads(s.shown, freed, s.step + 1, x);
    FreedLosePayloads(s.shown, freed, s.shown.droppedAt, x);
  }

  lemma AlongTwice(s: Store, g: Store, h: Store, x: Slice)
    requires GoesAlong(s, g, x) && GoesAlong(g, h, x)
    ensures GoesAlong(s, h, x)
  {}

  lemma StaysAlong(s: Store, g: Store, x: Slice)
    requires g.loaded == s.loaded && g.shown.snapshot == s.shown.snapshot
    ensures GoesAlong(s, g, x)
  {}

  lemma {:induction false} DisposalGoesAlong(s: Store, order: seq<nat>, x: Slice, n: nat)
    requires LeasesOk(s, n) && x in DEDICATED_SLICES
    ensures GoesAlong(s, AllDisposed(s, order), x)
  {
    hide LeasesOk, Return, GoesAlong;
    if order == [] {
      StaysAlong(s, s, x);
    } else {
      var front, l := AllDisposed(s, order[..|order| - 1]), order[|order| - 1];
      DisposalGoesAlong(s, order[..|order| - 1], x, n);
      AllDisposedKeepsLeases(s, order[..|order| - 1], n);
      StaysAlong(front, front, x);
      if l in front.leases && front.leases[l].holding.Held? { ReturnGoesAlong(front, l, x, n); }
      AlongTwice(s, front, AllDisposed(s, order), x);
    }
  }

  lemma LeaseGoesAlong(s: Store, e: Event, x: Slice)
    requires LeasesOk(s, s.step) && OfLease(e) && x in DEDICATED_SLICES
    ensures GoesAlong(s, LeaseEffect(s, e), x)
  {
    hide LeasesOk, Return, GoesAlong, AllDisposed, Aborting, Resolvable;
    StaysAlong(s, s, x);
    match e
    case Resolve(l, ok) => ResolvedGoesAlong(s, l, ok, x);
    case Renew(l) => StaysAlong(s, LeaseEffect(s, e), x);
    case Expire(l) => if l in s.leases && s.leases[l].holding.Held? { ReturnGoesAlong(s, l, x, s.step); }
    case DisposeLease(l) => if l in s.leases && s.leases[l].holding.Held? { ReturnGoesAlong(s, l, x, s.step); }
    case DisposeStore =>
      var closing := s.(disposed := true, flights := Aborting(s.flights, s.inFlight));
      ClosingKeepsLeases(s);
      StaysAlong(s, closing, x);
      DisposalGoesAlong(closing, s.disposers, x, s.step);
      AlongTwice(s, closing, AllDisposed(closing, s.disposers), x);
  }

  lemma ResolvedGoesAlong(s: Store, l: nat, ok: bool, x: Slice)
    requires LeasesOk(s, s.step) && x in DEDICATED_SLICES
    ensures GoesAlong(s, Resolved(s, l, ok), x)
  {
    hide LeasesOk, Return, GoesAlong;
    if Resolvable(s, l) && !ok { ReturnGoesAlong(s, l, x, s.step); } else { StaysAlong(s, Resolved(s, l, ok), x); }
  }

  lemma ClosingKeepsLeases(s: Store)
    requires LeasesOk(s, s.step)
    ensures LeasesOk(s.(disposed := true, flights := Aborting(s.flights, s.inFlight)), s.step)
  {
    hide CountsOk;
  }

  lemma FlightLeavesPayloads(s: Store, e: Event, now: int)
    requires OfFlight(e)
    ensures var g := FlightEffect(s, e, now);
      g.loaded == s.loaded && (!ShowsAnswer(s, e, now) ==> Payloads(g.shown) == Payloads(s.shown))
  {
    hide Turned, ChangedSlices, Recovery;
  }

  lemma RequestLeavesPayloads(s: Store, e: Event, now: int)
    requires !OfFlight(e) && !OfLease(e)
    ensures var g := RequestEffect(s, e, now);
      && s.loaded <= g.loaded && (Restores(s, e) || e.Move? ==> g.loaded == s.loaded)
      && (!Restores(s, e) ==> Payloads(g.shown) == if e.Move? then {} else Payloads(s.shown))
  {
    hide WithoutEphemeral, Aborting, Launched, Bumped, Taken;
  }

  lemma OnlyFlightsAnswer(s: Store, e: Event, now: int)
    ensures ShowsAnswer(s, e, now) ==> OfFlight(e) && e.flight in s.flights
    ensures Restores(s, e) ==> !OfFlight(e) && !OfLease(e)
  {}

  // Unless it replaces what is shown, an event takes a dedicated payload away exactly if it ends the last
  // lease on the slice, and brings none.
  lemma StepMovesPayload(s: Store, e: Event, now: int, x: Slice)
    requires LeasesOk(s, s.step) && x in DEDICATED_SLICES
    ensures var g := Step(s, e, now);
      if ShowsAnswer(s, e, now) || Restores(s, e) || e.Move?
      then g.loaded == s.loaded && (!ShowsAnswer(s, e, now) && !Restores(s, e) ==> Payloads(g.shown) == {})
      else x in Payloads(g.shown) <==> x in Payloads(s.shown) && !(x in s.loaded && x !in g.loaded)
  {
    hide FlightEffect, LeaseEffect, RequestEffect, ShowsAnswer, Restores, LeasesOk;
    OnlyFlightsAnswer(s, e, now);
    if OfFlight(e) {
      FlightLeavesPayloads(s, e, now);
    } else if OfLease(e) {
      LeaseGoesAlong(s, e, x);
    } else {
      RequestLeavesPayloads(s, e, now);
    }
  }

  // A dedicated payload is shown if and only if what was shown last in its place brought it and no last
  // lease on it has ended since.
  lemma {:induction false} PayloadsAreTraced(events: seq<Timed>, x: Slice)
    requires x in DEDICATED_SLICES
    ensures var source := SourceOf(events);
      && (!source.Nothing? ==> source.at < |events|)
      && (x in Payloads(Run(events).shown) <==>
            !source.Nothing? && x in source.brought && FreedAt(events, x) <= source.at)
  {
    if events != [] {
      hide Step, ShowsAnswer, Restores, RefreshOk, LeasesOk;
      var front, last := events[..|events| - 1], events[|events| - 1];
      PayloadsAreTraced(front, x);
      StoreInvariant(front);
      StepMovesPayload(Run(front), last.event, last.now, x);
    }
  }

  lemma {:induction false} FreedSince(events: seq<Timed>, i: nat, x: Slice)
    requires i <= |events| && x in Run(events[..i]).loaded && x !in Run(events).loaded
    ensures i < FreedAt(events, x)
  {
    hide Step;
    assert events[..|events|] == events;
    if i < |events| {
      var front := events[..|events| - 1];
      assert front[..i] == events[..i];
      if x !in Run(front).loaded { FreedSince(front, i, x); }
    }
  }

  // ---- Answers that bring only what was asked for ----

  // Neither an answer nor a configuration inventory brings a dedicated payload that was not asked for.
  ghost predicate BringsOnlyAsked(s: Store, e: Event) {
    match e
    case SnapshotReply(id, Answer(snapshot)) =>
      id in s.flights ==> snapshot.payload.Keys * DEDICATED_SLICES <= s.flights[id].slices
    case ConfigurationReply(_, Answer(configuration)) => configuration.payload.Keys !! DEDICATED_SLICES
    case _ => true
  }

  ghost predicate AnswersAreAsked(events: seq<Timed>) {
    forall k | 0 <= k < |events| :: BringsOnlyAsked(Run(events[..k]), events[k].event)
  }

  // What a recovery remembers of the independent read it is making.
  ghost predicate AskedFor(events: seq<Timed>, phase: Phase)
    requires phase.Independent?
  {
    && phase.askedAt < |events| && phase.leased <= Run(events[..phase.askedAt + 1]).loaded
    && phase.configuration.payload.Keys !! DEDICATED_SLICES
  }

  lemma InventoryIsBare(s: Store, e: Event, id: nat, configuration: Snapshot)
    requires BringsOnlyAsked(s, e) && e == ConfigurationReply(id, Answer(configuration))
    ensures configuration.payload.Keys !! DEDICATED_SLICES
  {}

  lemma AnswerIsBare(events: seq<Timed>, k: nat, id: nat, configuration: Snapshot)
    requires AnswersAreAsked(events) && k < |events| && events[k].event == ConfigurationReply(id, Answer(configuration))
    ensures configuration.payload.Keys !! DEDICATED_SLICES
  {
    hide Run, BringsOnlyAsked;
    InventoryIsBare(Run(events[..k]), events[k].event, id, configuration);
  }

  lemma LoadedThen(events: seq<Timed>, k: nat)
    requires k < |events| && OfFlight(events[k].event)
    ensures Run(events[..k]).loaded == Run(events[..k + 1]).loaded
  {
    hide Run, Step;
    RunGoesOn(events, k);
    LoadedIsKept(Run(events[..k]), events[k].event, events[k].now);
  }

  lemma IndependentWasAsked(events: seq<Timed>, id: nat)
    requires AnswersAreAsked(events) && id in Run(events).flights && Run(events).flights[id].phase.Independent?
    ensures AskedFor(events, Run(events).flights[id].phase)
  {
    hide Run, Step, AnswersAreAsked;
    RecoveryIsDated(events, id);
    var phase := Run(events).flights[id].phase;
    AnswerIsBare(events, phase.askedAt, id, phase.configuration);
    LoadedThen(events, phase.askedAt);
  }

  lemma LoadedIsKept(s: Store, e: Event, now: int)
    requires OfFlight(e)
    ensures Step(s, e, now).loaded == s.loaded
  {
    hide FlightEffect;
    FlightOnlyAdvances(s, e, now);
  }

  lemma AskedBefore(events: seq<Timed>)
    requires events != [] && AnswersAreAsked(events)
    ensures AnswersAreAsked(events[..|events| - 1])
  {
    hide Run, BringsOnlyAsked;
    var front := events[..|events| - 1];
    assert forall k | 0 <= k < |front| :: front[..k] == events[..k] && front[k] == events[k];
  }

  lemma RecoveryBringsLeased(configuration: Snapshot, leased: set<Slice>, extra: Option<Snapshot>)
    requires configuration.payload.Keys !! DEDICATED_SLICES
    ensures Recovery(configuration, leased, extra).payload.Keys * DEDICATED_SLICES <= leased
  {
    if extra.Some? {
      var absent := set x: Slice | x !in leased || x !in extra.value.payload;
      forall x ensures x in Keep([Comprehension, Sgos, Diagnostics], absent) ==> x in leased {
        KeepKeeps([Comprehension, Sgos, Diagnostics], absent, x);
      }
    }
  }

  lemma AnswerBringsAsked(s: Store, e: Event, now: int)
    requires ShowsAnswer(s, e, now) && BringsOnlyAsked(s, e)
    requires e.flight in s.flights && s.flights[e.flight].phase.Independent? ==>
               s.flights[e.flight].phase.configuration.payload.Keys !! DEDICATED_SLICES
    ensures var source := SourceAfter(s, e, now, Nothing);
      && e.flight in s.flights && var f := s.flights[e.flight];
      && source.Answered? && source.at == s.step && source.brought * DEDICATED_SLICES <= source.asked
      && if e.IndependentReply?
         then f.phase.Independent? && source.readAt == f.phase.askedAt && source.asked == f.phase.leased
         else source.readAt == f.readAt && source.asked == f.slices
  {
    hide Turned, ChangedSlices, Recovery;
    var f := s.flights[e.flight];
    if e.IndependentReply? { RecoveryBringsLeased(f.phase.configuration, f.phase.leased, e.extra); }
  }

  // An answer that is shown had asked for every dedicated slice it brought, when that slice was loaded.
  ghost predicate SourceIsAsked(events: seq<Timed>, source: Source) {
    && (source.Answered? ==>
          && source.readAt < source.at < |events| && source.brought * DEDICATED_SLICES <= source.asked
          && source.asked <= Run(events[..source.readAt + 1]).loaded)
    && (source.Cached? && Comprehension in source.brought ==>
          source.at < |events| && Comprehension in Run(events[..source.at + 1]).loaded)
  }

  lemma SourceStaysAsked(events: seq<Timed>, e: Timed, source: Source)
    requires SourceIsAsked(events, source)
    ensures SourceIsAsked(events + [e], source)
  {
    hide Run;
    var all := events + [e];
    assert forall i | 0 <= i <= |events| :: all[..i] == events[..i];
  }

  lemma EphemeralPayload(snapshot: Snapshot, retained: set<Slice>, x: Slice)
    ensures x in WithoutEphemeral(snapshot, retained).payload <==>
            x in snapshot.payload && (x != Comprehension || Comprehension in retained)
  {
    hide Keep;
  }

  // Of the two dedicated slices only Comprehension is kept out of the cache's snapshot, unless it is moved
  // to while leased: Sgos comes back whether or not anyone holds a lease on it.
  lemma WhatTheCacheBrings(s: Store, e: Event, now: int, x: Slice)
    requires Restores(s, e) && x in DEDICATED_SLICES
    ensures x in Payloads(Step(s, e, now).shown) <==>
            x in e.cached.value.payload && (x == Sgos || (e.Move? && CountOf(s.counts, Comprehension) > 0))
  {
    hide WithoutEphemeral, Aborting;
    EphemeralPayload(e.cached.value, {}, x);
    EphemeralPayload(e.cached.value, {Comprehension}, x);
  }

  lemma CachedIsLoaded(s: Store, e: Event, now: int)
    requires LeasesOk(s, s.step) && Restores(s, e)
    ensures Comprehension in Payloads(Step(s, e, now).shown) ==> Comprehension in Step(s, e, now).loaded
  {
    hide CountsOk, Keep;
    WhatTheCacheBrings(s, e, now, Comprehension);
  }

  lemma {:induction false} SourcesAreAsked(events: seq<Timed>)
    requires AnswersAreAsked(events)
    ensures SourceIsAsked(events, SourceOf(events))
  {
    hide Step, Run, ShowsAnswer, Restores, RefreshOk, LeasesOk, SourceIsAsked, SourceAfter, BringsOnlyAsked;
    if events == [] {
      assert SourceIsAsked(events, Nothing) by { NothingIsAsked(events); }
    } else {
      var front, last := events[..|events| - 1], events[|events| - 1];
      assert events == front + [last] && events[..|front|] == front;
      AskedBefore(events);
      SourcesAreAsked(front);
      SourceStaysAsked(front, last, SourceOf(front));
      StoreInvariant(front);
      if ShowsAnswer(Run(front), last.event, last.now) {
        AnswerIsAsked(front, last);
      } else {
        OthersAreAsked(front, last);
      }
    }
  }

  lemma NothingIsAsked(events: seq<Timed>)
    ensures SourceIsAsked(events, Nothing)
  {}

  lemma SlicesWereLoaded(events: seq<Timed>, id: nat)
    requires id in Run(events).flights
    ensures var f := Run(events).flights[id]; f.readAt < |events| && f.slices == Run(events[..f.readAt + 1]).loaded
  {
    hide Run;
    FlightsRemember(events, id);
  }

  lemma AnswerReplaces(s: Store, e: Event, now: int, source: Source)
    requires ShowsAnswer(s, e, now)
    ensures SourceAfter(s, e, now, source) == SourceAfter(s, e, now, Nothing)
  {
    hide ShowsAnswer, Step;
  }

  lemma AnswerIsAsked(events: seq<Timed>, e: Timed)
    requires AnswersAreAsked(events) && BringsOnlyAsked(Run(events), e.event)
    requires ShowsAnswer(Run(events), e.event, e.now)
    ensures SourceIsAsked(events + [e], SourceAfter(Run(events), e.event, e.now, SourceOf(events)))
  {
    hide Run, ShowsAnswer, SourceAfter, RefreshOk, LeasesOk, BringsOnlyAsked, AnswersAreAsked;
    var s, all := Run(events), events + [e];
    StoreInvariant(events);
    OnlyFlightsAnswer(s, e.event, e.now);
    var id := e.event.flight;
    SlicesWereLoaded(events, id);
    if s.flights[id].phase.Independent? { IndependentWasAsked(events, id); }
    AnswerBringsAsked(s, e.event, e.now);
    AnswerReplaces(s, e.event, e.now, SourceOf(events));
    assert forall i | 0 <= i <= |events| :: all[..i] == events[..i];
  }

  lemma OthersAreAsked(events: seq<Timed>, e: Timed)
    requires LeasesOk(Run(events), |events|) && Run(events).step == |events|
    requires !ShowsAnswer(Run(events), e.event, e.now) && SourceIsAsked(events + [e], SourceOf(events))
    ensures SourceIsAsked(events + [e], SourceAfter(Run(events), e.event, e.now, SourceOf(events)))
  {
    hide Step, Run, ShowsAnswer, Restores, LeasesOk;
    if Restores(Run(events), e.event) {
      CachedIsLoaded(Run(events), e.event, e.now);
      var all := events + [e];
      assert all[..|all|] == all;
      RunGoesOn(all, |events|);
      assert all[..|events|] == events;
    }
  }

  // With answers that bring only what was asked for, a dedicated slice nobody holds any more is still
  // shown if and only if it came with an answer to a read that asked for it before its last lease ended
  // and was answered after, or it is Sgos and came out of the cache.
  lemma UnloadedPayloads(events: seq<Timed>, x: Slice)
    requires AnswersAreAsked(events) && x in DEDICATED_SLICES && x !in Run(events).loaded
    ensures SourceIsAsked(events, SourceOf(events))
    ensures var source := SourceOf(events);
      x in Payloads(Run(events).shown) <==>
        || (source.Answered? && x in source.asked && x in source.brought
            && source.readAt < FreedAt(events, x) <= source.at)
        || (source.Cached? && x == Sgos && x in source.brought && FreedAt(events, x) <= source.at)
  {
    hide Run, SourceOf, FreedAt, AnswersAreAsked;
    SourcesAreAsked(events);
    PayloadsAreTraced(events, x);
    var source := SourceOf(events);
    if source.Answered? && x in source.brought { FreedSince(events, source.readAt + 1, x); }
    if source.Cached? && x == Comprehension && x in source.brought { FreedSince(events, source.at + 1, x); }
  }

  // ---- Both happen ----

  const OLD_EXPLORER := Snapshot(map[Sgos := 1], Some([Sgos]), None, false)

  lemma CachedSgosIsUnleased()
    ensures var s := Run([Timed(Prime(Some(OLD_EXPLORER)), 0)]);
      Sgos in Payloads(s.shown) && Sgos !in s.loaded && CountOf(s.counts, Sgos) == 0
  {
    RunAppends([], Prime(Some(OLD_EXPLORER)));
    assert [] + [Timed(Prime(Some(OLD_EXPLORER)), 0)] == [Timed(Prime(Some(OLD_EXPLORER)), 0)];
  }

  const HEAVY := Snapshot(map[Comprehension := 1], Some([Comprehension]),
                          Some(Revision(Some(7), Some(map[Comprehension := 1]), 0)), false)

  // A lease is acquired and its slice read; then another read begins, and the lease ends while it runs.
  const LEASED: seq<Event> := [Acquire({Comprehension}, false), SnapshotReply(0, Answer(HEAVY)), Settle(0),
                               Resolve(0, true), Refresh(false), DisposeLease(0)]

  function At0(events: seq<Event>): seq<Timed> {
    seq(|events|, i requires 0 <= i < |events| => Timed(events[i], 0))
  }

  lemma OneMore(events: seq<Event>, e: Event)
    ensures Run(At0(events + [e])) == Step(Run(At0(events)), e, 0)
  {
    hide Step;
    RunAppends(At0(events), e);
    assert At0(events + [e]) == At0(events) + [Timed(e, 0)];
  }

  lemma OneMoreLeased(n: nat)
    requires n < |LEASED|
    ensures Run(At0(LEASED[..n + 1])) == Step(Run(At0(LEASED[..n])), LEASED[n], 0)
  {
    hide Run, Step;
    assert LEASED[..n + 1] == LEASED[..n] + [LEASED[n]];
    OneMore(LEASED[..n], LEASED[n]);
  }

  // Flight `id` is current and reads; the lease is being acquired, or held.
  ghost predicate Stage(s: Store, id: Option<nat>, holding: Holding) {
    && s.inFlight == id && !s.disposed && s.leases == map[0 := Lease({Comprehension}, holding, false)]
    && s.loaded == CORE_SNAPSHOT_SLICES + {Comprehension} && s.counts == map[Comprehension := 1]
    && (id.Some? ==> id.value in s.flights && !s.flights[id.value].aborted
                     && s.flights[id.value].generation == s.generation)
  }

  lemma FirstSliceLoads(s: Store)
    requires s == EMPTY_STORE
    ensures AwaitedFor(s, {Comprehension}) == Some(0)
    ensures var g := Ensured(s, {Comprehension}, 0);
      && g.inFlight == Some(0) && !g.disposed && g.loaded == CORE_SNAPSHOT_SLICES + {Comprehension} && g.step == 0
      && g.leases == map[] && 0 in g.flights && g.flights[0].phase.Reading? && !g.flights[0].aborted
      && g.flights[0].generation == g.generation
  {
    assert Comprehension !in s.loaded;
  }

  lemma FirstSliceCounts()
    ensures Taken(map[], {Comprehension}) == map[Comprehension := 1]
  {}

  lemma AcquireStarts(s: Store)
    requires s == EMPTY_STORE
    ensures var g := Step(s, LEASED[0], 0);
      Stage(g, Some(0), Pending(Some(0))) && g.flights[0].phase.Reading? && g.step == 1
  {
    hide Ensured, Taken, AwaitedFor;
    FirstSliceLoads(s);
    FirstSliceCounts();
  }

  lemma AnswerArrives(s: Store, id: nat, holding: Holding)
    requires Stage(s, Some(id), holding) && s.flights[id].phase.Reading?
    ensures var g := Step(s, SnapshotReply(id, Answer(HEAVY)), 0);
      && Stage(g, Some(id), holding) && g.flights[id].phase.Settling? && g.step == s.step + 1
      && g.shown.snapshot == Some(HEAVY)
  {}

  lemma FlightEnds(s: Store, id: nat, holding: Holding)
    requires Stage(s, Some(id), holding) && s.flights[id].phase.Settling?
    ensures var g := Step(s, Settle(id), 0);
      && Stage(g, None, holding) && id in g.flights && g.flights[id].phase.Done? && g.step == s.step + 1
      && g.shown.snapshot == s.shown.snapshot
  {}

  lemma LeaseIsHeld(s: Store)
    requires Stage(s, None, Pending(Some(0))) && 0 in s.flights && s.flights[0].phase.Done?
    ensures var g := Step(s, Resolve(0, true), 0);
      Stage(g, None, Held) && g.step == s.step + 1 && g.shown.snapshot == s.shown.snapshot
  {}

  lemma RefreshStarts(s: Store)
    requires Stage(s, None, Held)
    ensures var g := Step(s, Refresh(false), 0);
      && Stage(g, Some(s.step), Held) && g.flights[s.step].phase.Reading? && g.flights[s.step].readAt == s.step
      && g.step == s.step + 1 && g.shown.snapshot == s.shown.snapshot
  {}

  lemma LeaseEnds(s: Store, id: nat)
    requires Stage(s, Some(id), Held) && s.flights[id].phase.Reading? && s.shown.snapshot == Some(HEAVY)
    ensures var g := Step(s, DisposeLease(0), 0);
      && id in g.flights && g.flights[id].phase.Reading? && g.flights[id].generation == g.generation
      && g.flights[id].readAt == s.flights[id].readAt
      && Comprehension !in g.loaded && CountOf(g.counts, Comprehension) == 0
      && g.shown.snapshot == Some(Without(HEAVY, {Comprehension}))
  {
    hide Remove, Keep;
    assert Freed(s.counts, {Comprehension}) == {Comprehension};
    assert PayloadsOf(s.shown, {Comprehension}) == {Comprehension};
  }

  lemma LateAnswer(s: Store, id: nat)
    requires id in s.flights && s.flights[id].phase.Reading? && s.flights[id].generation == s.generation
    ensures var g := Step(s, SnapshotReply(id, Answer(HEAVY)), 0);
      g.shown.snapshot == Some(HEAVY) && g.loaded == s.loaded && g.counts == s.counts
  {}

  // The second read was made over the slice, which is gone when it is to be answered.
  lemma LeaseEndsDuringTheRead()
    ensures var s := Run(At0(LEASED));
      && 4 in s.flights && s.flights[4].phase.Reading? && s.flights[4].generation == s.generation
      && s.flights[4].readAt == 4 && Run(At0(LEASED[..5])).shown.snapshot == Some(HEAVY)
      && Comprehension !in s.loaded && CountOf(s.counts, Comprehension) == 0
      && s.shown.snapshot == Some(Without(HEAVY, {Comprehension}))
  {
    hide Step, Stage, Run;
    assert Run(At0(LEASED[..0])) == EMPTY_STORE by { assert At0(LEASED[..0]) == []; EmptyRun(); }
    OneMoreLeased(0);
    AcquireStarts(EMPTY_STORE);
    OneMoreLeased(1);
    AnswerArrives(Run(At0(LEASED[..1])), 0, Pending(Some(0)));
    OneMoreLeased(2);
    FlightEnds(Run(At0(LEASED[..2])), 0, Pending(Some(0)));
    OneMoreLeased(3);
    LeaseIsHeld(Run(At0(LEASED[..3])));
    OneMoreLeased(4);
    RefreshStarts(Run(At0(LEASED[..4])));
    OneMoreLeased(5);
    LeaseEnds(Run(At0(LEASED[..5])), 4);
    assert LEASED[..6] == LEASED;
  }

  // The answer brings the slice back for nobody.
  lemma ReleasedSliceComesBack()
    ensures var s := Run(At0(LEASED + [SnapshotReply(4, Answer(HEAVY))]));
      Comprehension in Payloads(s.shown) && Comprehension !in s.loaded && CountOf(s.counts, Comprehension) == 0
  {
    hide Step, Run;
    LeaseEndsDuringTheRead();
    OneMore(LEASED, SnapshotReply(4, Answer(HEAVY)));
    LateAnswer(Run(At0(LEASED)), 4);
  }

  lemma EmptyRun()
    ensures Run([]) == EMPTY_STORE
  {}
}
