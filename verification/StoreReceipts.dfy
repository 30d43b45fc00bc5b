// What becomes of the shown snapshot between an attempt and the receipt that answers it: only leases that
// end touch it, and each takes payloads and digests along.
module StoreReceipts {
  import opened Snapshots
  import opened WorkspaceStores
  import opened StoreRuns
  import opened Wrappers

  // The payloads that are gone.
  function Lost(before: Option<Snapshot>, after: Option<Snapshot>): set<Slice> {
    if before.None? || after.None? then {} else before.value.payload.Keys - after.value.payload.Keys
  }

  // Releasing leases takes payloads out of what is shown, their digests with them, and adds nothing.
  ghost predicate Trims(before: Option<Snapshot>, after: Option<Snapshot>) {
    after == before ||
    (&& before.Some? && after.Some? && after.value.payload.Keys < before.value.payload.Keys
     && forall x :: Digest(Digests(after.value), x) ==
                    if x in Lost(before, after) then None else Digest(Digests(before.value), x))
  }

  lemma TrimsTwice(a: Option<Snapshot>, b: Option<Snapshot>, c: Option<Snapshot>)
    requires Trims(a, b) && Trims(b, c)
    ensures Trims(a, c)
  {
    hide Digests, Digest;
    if a.Some? && b.Some? && c.Some? && a != b && b != c {
      assert Lost(a, c) == Lost(a, b) + Lost(b, c);
    }
  }

  lemma NothingTrims(snapshot: Option<Snapshot>)
    ensures Trims(snapshot, snapshot)
  {}

  lemma WithoutTrims(snapshot: Option<Snapshot>, payloads: set<Slice>)
    requires payloads != {} ==> snapshot.Some? && payloads <= snapshot.value.payload.Keys
    ensures Trims(snapshot, WithoutPayloads(snapshot, payloads))
  {
    hide Keep;
    if payloads != {} && snapshot.Some? {
      var after := WithoutPayloads(snapshot, payloads);
      assert after.value.payload.Keys == snapshot.value.payload.Keys - payloads;
      assert Lost(snapshot, after) == payloads;
      var x :| x in payloads;
      assert x in snapshot.value.payload.Keys && x !in after.value.payload.Keys;
    }
  }

  lemma ReturnTrims(s: Store, l: nat)
    requires l in s.leases
    ensures Trims(s.shown.snapshot, Return(s, l).shown.snapshot)
  {
    hide WithoutPayloads, Trims, Freed, Remove, WorkspaceStores.Dropped;
    WithoutTrims(s.shown.snapshot, PayloadsOf(s.shown, Freed(s.counts, s.leases[l].slices)));
  }

  lemma {:induction false} DisposalTrims(s: Store, order: seq<nat>)
    ensures Trims(s.shown.snapshot, AllDisposed(s, order).shown.snapshot)
  {
    if order != [] {
      var front := AllDisposed(s, order[..|order| - 1]);
      hide Return, Trims;
      DisposalTrims(s, order[..|order| - 1]);
      NothingTrims(front.shown.snapshot);
      if order[|order| - 1] in front.leases { ReturnTrims(front, order[|order| - 1]); }
      TrimsTwice(s.shown.snapshot, front.shown.snapshot, AllDisposed(s, order).shown.snapshot);
    } else {
      NothingTrims(s.shown.snapshot);
    }
  }

  lemma LeaseTrims(s: Store, e: Event)
    requires OfLease(e)
    ensures Trims(s.shown.snapshot, LeaseEffect(s, e).shown.snapshot)
  {
    hide Trims, Return, AllDisposed;
    NothingTrims(s.shown.snapshot);
    match e
    case Resolve(l, ok) => if l in s.leases { ReturnTrims(s, l); }
    case Renew(l) =>
    case Expire(l) => if l in s.leases { ReturnTrims(s, l); }
    case DisposeLease(l) => if l in s.leases { ReturnTrims(s, l); }
    case DisposeStore =>
      DisposalTrims(s.(disposed := true, flights := Aborting(s.flights, s.inFlight)), s.disposers);
  }

  // ---- One step of a read that goes on ----

  ghost predicate StillReads(s: Store, id: nat, at: nat) {
    Current(s, id) && s.flights[id].phase.Reading? && s.flights[id].readAt == at
  }

  lemma TurnStillReading(s: Store, f: Flight, e: Event, now: int)
    requires var g := Turned(s, f, TurnOf(s, f, e, now), now); g.phase.Reading? && g.readAt != s.step
    ensures f.phase.Reading? && !TurnOf(s, f, e, now).Publish?
    ensures Turned(s, f, TurnOf(s, f, e, now), now).readAt == f.readAt
  {}

  lemma PhaseComesFrom(s: Store, e: Event, now: int, id: nat, at: nat)
    requires id in s.flights && id != s.step && at != s.step && StillReads(Step(s, e, now), id, at)
    ensures s.flights[id].phase.Reading? && s.flights[id].readAt == at
    ensures OfFlight(e) && e.flight == id ==> Step(s, e, now).shown == s.shown
  {
    hide Step, Launches, TurnOf, Turned;
    if OfFlight(e) {
      ReplyTurns(s, e, now, id);
      if e.flight == id && !e.Settle? { TurnStillReading(s, s.flights[id], e, now); }
    } else {
      NonReplyLaunches(s, e, now);
      LaunchKeepsRecovering(s, Step(s, e, now).(step := s.step), id);
    }
  }

  lemma GenerationComesFrom(s: Store, e: Event, now: int, id: nat, at: nat)
    requires RefreshOk(s, s.step) && id in s.flights && at < s.step && StillReads(Step(s, e, now), id, at)
    requires RefreshOk(Step(s, e, now), s.step + 1)
    ensures s.flights[id].generation == s.generation == Step(s, e, now).generation
  {
    hide Step, RefreshOk, Read;
    StepEvolves(s, e, now, id);
    FlightIsOk(s, id, s.step);
    FlightIsOk(Step(s, e, now), id, s.step + 1);
    SupersedingBumps(s, e, now);
  }

  lemma ReadingComesFrom(s: Store, e: Event, now: int, id: nat, at: nat)
    requires RefreshOk(s, s.step) && LeasesOk(s, s.step) && at < s.step && StillReads(Step(s, e, now), id, at)
    ensures StillReads(s, id, at)
    ensures OfFlight(e) && e.flight == id ==> Step(s, e, now).shown == s.shown
  {
    hide Step, RefreshOk, LeasesOk, Evolves;
    StepKeeps(s, e, now);
    StepEvolves(s, e, now, id);
    FlightsAreOld(s, s.step);
    PhaseComesFrom(s, e, now, id, at);
    GenerationComesFrom(s, e, now, id, at);
  }

  lemma RequestLeavesShown(s: Store, e: Event, now: int)
    requires !OfFlight(e) && !OfLease(e) && !e.Move? && s.shown.snapshot.Some?
    ensures RequestEffect(s, e, now).shown.snapshot == s.shown.snapshot
  {
    hide WithoutEphemeral, Launched, Bumped, Taken;
  }

  // While a current read goes on, what is shown changes only by leases that end.
  lemma ReadingTrims(s: Store, e: Event, now: int, id: nat, at: nat)
    requires RefreshOk(s, s.step) && LeasesOk(s, s.step) && at < s.step && StillReads(Step(s, e, now), id, at)
    requires s.shown.snapshot.Some?
    ensures Trims(s.shown.snapshot, Step(s, e, now).shown.snapshot)
  {
    ReadingComesFrom(s, e, now, id, at);
    CurrentReadsHere(s, id, s.step);
    SupersedingBumps(s, e, now);
    GenerationStays(s, e, now, id, at);
    hide RefreshOk, LeasesOk, Trims, FlightEffect, LeaseEffect, RequestEffect, StillReads;
    NothingTrims(s.shown.snapshot);
    if OfFlight(e) {
      if e.flight != id { OldFlightsAreSilent(s, e, now); }
    } else if OfLease(e) {
      LeaseTrims(s, e);
    } else {
      RequestLeavesShown(s, e, now);
    }
  }

  lemma GenerationStays(s: Store, e: Event, now: int, id: nat, at: nat)
    requires RefreshOk(s, s.step) && LeasesOk(s, s.step) && at < s.step && StillReads(Step(s, e, now), id, at)
    ensures !e.Move?
  {
    hide Step, RefreshOk, LeasesOk;
    StepKeeps(s, e, now);
    ReadingComesFrom(s, e, now, id, at);
    GenerationComesFrom(s, e, now, id, at);
    SupersedingBumps(s, e, now);
  }

  // ---- From the attempt to its answer ----

  function ShownAt(events: seq<Timed>, k: nat): Option<Snapshot>
    requires k <= |events|
  {
    Run(events[..k]).shown.snapshot
  }

  // In event `k` the payload of `x` is taken out of what is shown.
  predicate LostIn(events: seq<Timed>, k: nat, x: Slice)
    requires k < |events|
  {
    x in Lost(ShownAt(events, k), ShownAt(events, k + 1))
  }

  ghost predicate LostSince(events: seq<Timed>, at: nat, x: Slice) {
    exists k :: at < k < |events| && LostIn(events, k, x)
  }

  lemma LostMore(events: seq<Timed>, at: nat, x: Slice)
    requires at + 1 < |events|
    ensures var front := events[..|events| - 1];
      LostSince(events, at, x) <==>
        LostSince(front, at, x) || x in Lost(Run(front).shown.snapshot, Run(events).shown.snapshot)
  {
    hide Run, Lost;
    var front := events[..|events| - 1];
    assert forall k | 0 <= k <= |front| :: front[..k] == events[..k];
    assert events[..|front|] == front && events[..|events|] == events;
    assert LostIn(events, |front|, x) <==> x in Lost(Run(front).shown.snapshot, Run(events).shown.snapshot);
    assert forall k | 0 <= k < |front| :: LostIn(events, k, x) <==> LostIn(front, k, x);
  }

  lemma {:induction false} ReadingThroughout(events: seq<Timed>, id: nat, at: nat, k: nat)
    requires StillReads(Run(events), id, at) && at < k <= |events|
    ensures StillReads(Run(events[..k]), id, at)
  {
    hide Step, RefreshOk, LeasesOk, StillReads;
    if k == |events| {
      assert events[..k] == events;
    } else {
      var front := events[..|events| - 1];
      StoreInvariant(front);
      ReadingComesFrom(Run(front), events[|front|].event, events[|front|].now, id, at);
      ReadingThroughout(front, id, at, k);
      assert front[..k] == events[..k];
    }
  }

  ghost predicate TracedBack(now: Option<Snapshot>, then': Option<Snapshot>, x: Slice, lost: bool) {
    && now.Some? && then'.Some?
    && (x in now.value.payload <==> x in then'.value.payload && !lost)
    && Digest(Digests(now.value), x) == if lost then None else Digest(Digests(then'.value), x)
  }

  lemma TraceGoesOn(then': Option<Snapshot>, s: Option<Snapshot>, g: Option<Snapshot>, x: Slice, lost: bool)
    requires TracedBack(s, then', x, lost) && Trims(s, g)
    ensures TracedBack(g, then', x, lost || x in Lost(s, g))
  {
    hide Digests;
  }

  // What a current read's answer meets is what was shown when the read began, but for the payloads taken
  // out since and their digests.
  lemma {:induction false} ShownSinceTheAttempt(events: seq<Timed>, id: nat, at: nat, x: Slice)
    requires StillReads(Run(events), id, at) && at < |events| && ShownAt(events, at + 1).Some?
    ensures TracedBack(Run(events).shown.snapshot, ShownAt(events, at + 1), x, LostSince(events, at, x))
  {
    hide Step, RefreshOk, LeasesOk, StillReads, TracedBack, LostSince;
    if at + 1 == |events| {
      assert events[..at + 1] == events;
      NothingLostYet(events, at, x);
    } else {
      var front, last := events[..|events| - 1], events[|events| - 1];
      assert front[..at + 1] == events[..at + 1];
      StoreInvariant(front);
      ReadingComesFrom(Run(front), last.event, last.now, id, at);
      ShownSinceTheAttempt(front, id, at, x);
      SomeIsTraced(Run(front).shown.snapshot, ShownAt(events, at + 1), x, LostSince(front, at, x));
      ReadingTrims(Run(front), last.event, last.now, id, at);
      TraceGoesOn(ShownAt(events, at + 1), Run(front).shown.snapshot, Run(events).shown.snapshot, x,
                  LostSince(front, at, x));
      LostMore(events, at, x);
    }
  }

  lemma NothingLostYet(events: seq<Timed>, at: nat, x: Slice)
    requires at + 1 == |events| && Run(events).shown.snapshot.Some?
    ensures !LostSince(events, at, x) && TracedBack(Run(events).shown.snapshot, Run(events).shown.snapshot, x, false)
  {
    hide Run;
  }

  lemma SomeIsTraced(now: Option<Snapshot>, then': Option<Snapshot>, x: Slice, lost: bool)
    requires TracedBack(now, then', x, lost)
    ensures now.Some?
  {}

  // In some event since, a payload was taken out of what is shown that had a digest.
  ghost predicate DigestLost(events: seq<Timed>, at: nat) {
    exists k, x :: at < k < |events| && DigestLostIn(events, k, x)
  }

  predicate DigestLostIn(events: seq<Timed>, k: nat, x: Slice)
    requires k < |events|
  {
    LostIn(events, k, x) && x in Digests(ShownAt(events, k).value)
  }

  lemma LosingHadSome(events: seq<Timed>, k: nat, x: Slice)
    requires k < |events| && LostIn(events, k, x)
    ensures ShownAt(events, k).Some? && x in ShownAt(events, k).value.payload
  {
    hide Run;
  }

  // The digest that is lost is one that was shown when the read began, and it is lost once.
  lemma LostDigestWasThere(events: seq<Timed>, id: nat, at: nat, k: nat, x: Slice)
    requires StillReads(Run(events), id, at) && at < k < |events| && ShownAt(events, at + 1).Some?
    requires LostIn(events, k, x)
    ensures DigestLostIn(events, k, x) <==> x in Digests(ShownAt(events, at + 1).value)
  {
    hide Run, StillReads, LostSince;
    LosingHadSome(events, k, x);
    ReadingThroughout(events, id, at, k);
    var before := events[..k];
    assert before[..at + 1] == events[..at + 1];
    ShownSinceTheAttempt(before, id, at, x);
  }

  lemma DigestLossIsALoss(events: seq<Timed>, k: nat, x: Slice)
    requires k < |events| && DigestLostIn(events, k, x)
    ensures LostIn(events, k, x)
  {}

  lemma DigestsAreLostTogether(events: seq<Timed>, id: nat, at: nat)
    requires StillReads(Run(events), id, at) && at < |events| && ShownAt(events, at + 1).Some?
    ensures DigestLost(events, at) <==>
            exists x :: x in Digests(ShownAt(events, at + 1).value) && LostSince(events, at, x)
  {
    hide Run, StillReads, LostIn, DigestLostIn, Digests, ShownAt;
    if k, x :| at < k < |events| && DigestLostIn(events, k, x) {
      DigestLossIsALoss(events, k, x);
      LostDigestWasThere(events, id, at, k, x);
      assert LostSince(events, at, x);
    }
    if x :| x in Digests(ShownAt(events, at + 1).value) && LostSince(events, at, x) {
      var k :| at < k < |events| && LostIn(events, k, x);
      LostDigestWasThere(events, id, at, k, x);
    }
  }

  // What a receipt is laid over is the very snapshot its attempt was made over if and only if no payload
  // was taken out since.
  lemma ShownIsUntouched(events: seq<Timed>, id: nat, at: nat)
    requires StillReads(Run(events), id, at) && at < |events| && ShownAt(events, at + 1).Some?
    ensures Run(events).shown.snapshot == ShownAt(events, at + 1) <==> forall x :: !LostSince(events, at, x)
  {
    hide Run, StillReads, Digests;
    if forall x :: !LostSince(events, at, x) {
      NothingTouched(events, id, at);
    } else {
      var x, k :| at < k < |events| && LostIn(events, k, x);
      ShownSinceTheAttempt(events, id, at, x);
      LosingHadSome(events, k, x);
      ReadingThroughout(events, id, at, k);
      assert events[..k][..at + 1] == events[..at + 1];
      ShownSinceTheAttempt(events[..k], id, at, x);
    }
  }

  lemma {:induction false} NothingTouched(events: seq<Timed>, id: nat, at: nat)
    requires StillReads(Run(events), id, at) && at < |events| && ShownAt(events, at + 1).Some?
    requires forall x :: !LostSince(events, at, x)
    ensures Run(events).shown.snapshot == ShownAt(events, at + 1)
  {
    hide Step, RefreshOk, LeasesOk, StillReads, LostSince;
    if at + 1 == |events| {
      assert events[..at + 1] == events;
    } else {
      var front, last := events[..|events| - 1], events[|events| - 1];
      assert front[..at + 1] == events[..at + 1];
      StoreInvariant(front);
      ReadingComesFrom(Run(front), last.event, last.now, id, at);
      forall x ensures !LostSince(front, at, x) && x !in Lost(Run(front).shown.snapshot, Run(events).shown.snapshot) {
        LostMore(events, at, x);
      }
      NothingTouched(front, id, at);
      ReadingTrims(Run(front), last.event, last.now, id, at);
      NothingLostIsTheSame(Run(front).shown.snapshot, Run(events).shown.snapshot);
    }
  }

  lemma NothingLostIsTheSame(before: Option<Snapshot>, after: Option<Snapshot>)
    requires Trims(before, after) && Lost(before, after) == {}
    ensures after == before
  {
    if before.Some? && after.Some? {
      assert before.value.payload.Keys <= after.value.payload.Keys + Lost(before, after);
    }
  }

  // ---- Honest receipts ----

  // A not-modified answer is given over the snapshot that was shown when its attempt began, with its digests.
  ghost predicate Honest(events: seq<Timed>, id: nat, receipt: Snapshot) {
    && id in Run(events).flights
    && var at := Run(events).flights[id].readAt;
       && at < |events| && ShownAt(events, at + 1).Some?
       && (receipt.revision.None? || Digests(receipt) == Digests(ShownAt(events, at + 1).value))
  }

  // The receipt has no digest that is not shown.
  predicate Repeats(receipt: Snapshot, shown: Snapshot) {
    forall x | x in Digests(receipt) :: Digest(Digests(shown), x) == Some(Digests(receipt)[x])
  }

  lemma HonestReceiptsRepeat(events: seq<Timed>, id: nat, receipt: Snapshot)
    requires Honest(events, id, receipt) && receipt.revision.Some?
    requires StillReads(Run(events), id, Run(events).flights[id].readAt)
    ensures Run(events).shown.snapshot.Some?
    ensures Repeats(receipt, Run(events).shown.snapshot.value) <==> !DigestLost(events, Run(events).flights[id].readAt)
  {
    hide Run, StillReads, LostSince, DigestLost, Digests;
    var at := Run(events).flights[id].readAt;
    DigestsAreLostTogether(events, id, at);
    ShownSinceTheAttempt(events, id, at, Sgos);
    forall x ensures TracedBack(Run(events).shown.snapshot, ShownAt(events, at + 1), x, LostSince(events, at, x)) {
      ShownSinceTheAttempt(events, id, at, x);
    }
    var now, then' := Run(events).shown.snapshot, ShownAt(events, at + 1);
    forall x | x in Digests(receipt)
      ensures Digest(Digests(now.value), x) == Some(Digests(receipt)[x]) <==> !LostSince(events, at, x)
    {
      assert TracedBack(now, then', x, LostSince(events, at, x));
    }
  }
}
