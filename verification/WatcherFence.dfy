// RevisionSliceWatcherFence of apps/vscode/src/watcher-refresh-fence.ts: file events are dropped only on
// proof that a refresh already showed what they announce. The slices a path can affect are inputs.
module WatcherFences {
  import opened Snapshots
  import opened Wrappers

  datatype Event = Event(sequence: nat, autoPrivate: bool, candidates: seq<Slice>)

  // A batch taken out of the fence. `before` is what was shown when it was taken, and `expected` the
  // delayed echo a probe was started against.
  datatype Batch = Batch(events: seq<Event>, before: Option<Snapshot>, expected: Option<Delayed>)
  datatype Delayed = Delayed(revision: Revision, changed: set<Slice>)

  // Where an observed event is. History, like `observed`, `resetAt` and `resetBy`: the sequence at the last
  // reset, and one more than its index in the run. A batch is named by the index of its capture.
  datatype Home = Waiting | Taken(batch: nat) | Suppressed | Consumed | Discarded

  datatype Fence = Fence(sequence: nat, pending: seq<Event>, delayed: Option<Delayed>, batches: map<nat, Batch>,
                         observed: seq<Event>, homes: map<nat, Home>, resetAt: nat, resetBy: nat,
                         step: nat)

  const FRESH := Fence(0, [], None, map[], [], map[], 0, 0, 0)

  // ---- Putting events back ----

  function Insert(e: Event, sorted: seq<Event>): seq<Event> {
    if sorted == [] || e.sequence <= sorted[0].sequence then [e] + sorted
    else [sorted[0]] + Insert(e, sorted[1..])
  }

  function InsertAll(events: seq<Event>, sorted: seq<Event>): seq<Event> {
    if events == [] then sorted else Insert(events[0], InsertAll(events[1..], sorted))
  }

  predicate Knows(pending: seq<Event>, n: nat) {
    exists i :: 0 <= i < |pending| && pending[i].sequence == n
  }

  function Unknown(events: seq<Event>, pending: seq<Event>): seq<Event> {
    if events == [] then []
    else (if Knows(pending, events[0].sequence) then [] else [events[0]]) + Unknown(events[1..], pending)
  }

  // The unknown ones, in front of the pending ones, sorted by sequence.
  function PutBack(events: seq<Event>, pending: seq<Event>): seq<Event> {
    InsertAll(Unknown(events, pending), pending)
  }

  // ---- Proof that a refresh incorporated a batch ----

  // The first candidate that `known` knows.
  function Authoritative(candidates: seq<Slice>, known: set<Slice>): (slice: Option<Slice>)
    ensures slice.Some? ==> slice.value in known
  {
    if candidates == [] then None
    else if candidates[0] in known then Some(candidates[0])
    else Authoritative(candidates[1..], known)
  }

  predicate Incorporated(e: Event, before: map<Slice, nat>, after: map<Slice, nat>, changed: set<Slice>) {
    var slice := Authoritative(e.candidates, before.Keys * after.Keys);
    slice.Some? && slice.value in changed && before[slice.value] != after[slice.value]
  }

  predicate MatchesExplicitRefresh(events: seq<Event>, before: Option<Snapshot>, after: Option<Snapshot>) {
    && events != [] && before.Some? && after.Some?
    && (forall e | e in events :: !e.autoPrivate)
    && Subject(before.value).Some? && Subject(after.value).Some? && Subject(before.value) != Subject(after.value)
    && var changed := ChangedSlices(before, after);
       && changed != {}
       && forall e | e in events :: Incorporated(e, Digests(before.value), Digests(after.value), changed)
  }

  // Slice `x` is the first of the candidates that both snapshots know, and its digest moved.
  ghost predicate Proves(e: Event, before: map<Slice, nat>, after: map<Slice, nat>, k: nat) {
    && k < |e.candidates| && e.candidates[k] in before && e.candidates[k] in after
    && before[e.candidates[k]] != after[e.candidates[k]]
    && forall i | 0 <= i < k :: e.candidates[i] !in before || e.candidates[i] !in after
  }

  ghost predicate Proved(e: Event, before: map<Slice, nat>, after: map<Slice, nat>) {
    exists k: nat :: Proves(e, before, after, k)
  }

  lemma {:induction false} AuthoritativeIsFirst(candidates: seq<Slice>, known: set<Slice>, k: nat)
    requires k < |candidates| && candidates[k] in known && forall i | 0 <= i < k :: candidates[i] !in known
    ensures Authoritative(candidates, known) == Some(candidates[k])
  {
    if k > 0 {
      assert candidates[1..][k - 1] == candidates[k];
      AuthoritativeIsFirst(candidates[1..], known, k - 1);
    }
  }

  lemma {:induction false} AuthoritativeHasIndex(candidates: seq<Slice>, known: set<Slice>) returns (k: nat)
    requires Authoritative(candidates, known).Some?
    ensures k < |candidates| && candidates[k] == Authoritative(candidates, known).value && candidates[k] in known
    ensures forall i | 0 <= i < k :: candidates[i] !in known
  {
    k := 0;
    if candidates[0] !in known {
      var rest := AuthoritativeHasIndex(candidates[1..], known);
      k := rest + 1;
      forall i | 0 <= i < k ensures candidates[i] !in known {
        if i > 0 { assert candidates[i] == candidates[1..][i - 1]; }
      }
    }
  }

  lemma IncorporatedIsProved(e: Event, before: Snapshot, after: Snapshot)
    ensures Incorporated(e, Digests(before), Digests(after), ChangedSlices(Some(before), Some(after))) <==>
            Proved(e, Digests(before), Digests(after))
  {
    var known := Digests(before).Keys * Digests(after).Keys;
    if k: nat :| Proves(e, Digests(before), Digests(after), k) {
      AuthoritativeIsFirst(e.candidates, known, k);
      assert e.candidates[k] in Included(after);
    }
    if Authoritative(e.candidates, known).Some? {
      var k := AuthoritativeHasIndex(e.candidates, known);
      assert Incorporated(e, Digests(before), Digests(after), ChangedSlices(Some(before), Some(after))) ==>
             Proves(e, Digests(before), Digests(after), k);
    }
  }

  // A batch counts as incorporated exactly if it is not empty, none of it is private to automation, the
  // repository moved, and for every event the first slice known on both sides has a new digest.
  lemma SuppressionNeedsProof(events: seq<Event>, before: Option<Snapshot>, after: Option<Snapshot>)
    ensures MatchesExplicitRefresh(events, before, after) <==>
      && events != [] && before.Some? && after.Some?
      && (forall e | e in events :: !e.autoPrivate)
      && Subject(before.value).Some? && Subject(after.value).Some? && Subject(before.value) != Subject(after.value)
      && forall e | e in events :: Proved(e, Digests(before.value), Digests(after.value))
  {
    if before.Some? && after.Some? {
      forall e | e in events
        ensures Incorporated(e, Digests(before.value), Digests(after.value), ChangedSlices(before, after)) <==>
                Proved(e, Digests(before.value), Digests(after.value))
      {
        IncorporatedIsProved(e, before.value, after.value);
      }
      if events != [] { assert events[0] in events; }
    }
  }

  // ---- The delayed echo ----

  // `rest` is 0 for a revision without a worktree hash.
  function DelayedAfter(before: Option<Snapshot>, after: Option<Snapshot>): Option<Delayed> {
    var changed := ChangedSlices(before, after);
    if before.Some? && after.Some? && Subject(after.value).Some? && after.value.revision.value.rest != 0
       && Subject(before.value) != Subject(after.value) && changed != {}
    then Some(Delayed(after.value.revision.value, changed)) else None
  }

  function ExpectedDigests(expected: Delayed): map<Slice, nat> {
    if expected.revision.slices.Some? then expected.revision.slices.value else map[]
  }

  predicate EchoesSlices(events: seq<Event>, expected: Delayed) {
    && events != []
    && (forall e | e in events :: !e.autoPrivate)
    && forall e | e in events ::
         var slice := Authoritative(e.candidates, ExpectedDigests(expected).Keys);
         slice.Some? && slice.value in expected.changed
  }

  predicate EchoesExactly(expected: Delayed, actual: Option<Revision>) {
    actual.Some? && actual.value.rest == expected.revision.rest && actual.value.rest != 0
  }

  // The first of the candidates that is known, and it is one that changed.
  ghost predicate Echoes(e: Event, known: set<Slice>, changed: set<Slice>, k: nat) {
    && k < |e.candidates| && e.candidates[k] in known && e.candidates[k] in changed
    && forall i | 0 <= i < k :: e.candidates[i] !in known
  }

  ghost predicate Echoed(e: Event, known: set<Slice>, changed: set<Slice>) {
    exists k: nat :: Echoes(e, known, changed, k)
  }

  lemma EchoedIsFirst(e: Event, known: set<Slice>, changed: set<Slice>)
    ensures Echoed(e, known, changed) <==>
            var slice := Authoritative(e.candidates, known); slice.Some? && slice.value in changed
  {
    if k: nat :| Echoes(e, known, changed, k) {
      AuthoritativeIsFirst(e.candidates, known, k);
    }
    if Authoritative(e.candidates, known).Some? {
      var k := AuthoritativeHasIndex(e.candidates, known);
      assert e.candidates[k] in changed ==> Echoes(e, known, changed, k);
    }
  }

  lemma EchoesNeedProof(events: seq<Event>, expected: Delayed)
    ensures EchoesSlices(events, expected) <==>
      && events != [] && (forall e | e in events :: !e.autoPrivate)
      && forall e | e in events :: Echoed(e, ExpectedDigests(expected).Keys, expected.changed)
  {
    forall e | e in events
      ensures Echoed(e, ExpectedDigests(expected).Keys, expected.changed) <==>
              var slice := Authoritative(e.candidates, ExpectedDigests(expected).Keys);
              slice.Some? && slice.value in expected.changed
    {
      EchoedIsFirst(e, ExpectedDigests(expected).Keys, expected.changed);
    }
  }

  // A later batch counts as the refresh's own echo exactly if it is not empty, none of it is private to
  // automation, every event's first known slice is one the refresh changed, and a probe finds branch,
  // head and worktree as the refresh left them.
  lemma DelayedEchoNeedsProof(events: seq<Event>, before: Snapshot, after: Snapshot, actual: Option<Revision>)
    requires DelayedAfter(Some(before), Some(after)).Some?
    ensures Subject(after).Some? && Subject(before) != Subject(after) && after.revision.value.rest != 0
    ensures var expected := DelayedAfter(Some(before), Some(after)).value;
      EchoesSlices(events, expected) && EchoesExactly(expected, actual) <==>
        && events != [] && (forall e | e in events :: !e.autoPrivate)
        && (forall e | e in events :: Echoed(e, Digests(after).Keys, ChangedSlices(Some(before), Some(after))))
        && actual.Some? && actual.value.rest == after.revision.value.rest
  {
    EchoesNeedProof(events, DelayedAfter(Some(before), Some(after)).value);
  }

  // ---- The fence as a state machine ----

  // The outcome of a probe: it failed, or it answered.
  datatype Probe = Threw | Answered(revision: Option<Revision>)

  datatype Step =
    | Observe(autoPrivate: bool, candidates: seq<Slice>)
    | Capture(before: Option<Snapshot>)
    | Restore(batch: nat)
    | Consume(batch: nat)
    | Reconcile(batch: nat, after: Option<Snapshot>)
    | StartProbe(batch: nat)
    | EndProbe(batch: nat, probe: Probe)
    | ClearDelayed
    | Reset

  function Rehome(homes: map<nat, Home>, from: Home, to: Home): map<nat, Home> {
    map n | n in homes :: if homes[n] == from then to else homes[n]
  }

  function Observed(s: Fence, autoPrivate: bool, candidates: seq<Slice>): Fence {
    var e := Event(s.sequence + 1, autoPrivate, candidates);
    s.(sequence := s.sequence + 1, pending := s.pending + [e], observed := s.observed + [e],
       homes := s.homes[s.sequence + 1 := Waiting])
  }

  function Captured(s: Fence, before: Option<Snapshot>): Fence {
    s.(pending := [], batches := s.batches[s.step := Batch(s.pending, before, None)],
       homes := Rehome(s.homes, Waiting, Taken(s.step)))
  }

  function Restored(s: Fence, b: nat): Fence
    requires b in s.batches
  {
    s.(pending := PutBack(s.batches[b].events, s.pending), batches := s.batches - {b},
       homes := Rehome(s.homes, Taken(b), Waiting))
  }

  function Ended(s: Fence, b: nat, home: Home): Fence
    requires b in s.batches
  {
    s.(batches := s.batches - {b}, homes := Rehome(s.homes, Taken(b), home))
  }

  function Reconciled(s: Fence, b: nat, after: Option<Snapshot>): Fence
    requires b in s.batches
  {
    var batch := s.batches[b];
    var g := if MatchesExplicitRefresh(batch.events, batch.before, after) then Ended(s, b, Suppressed)
             else Restored(s, b);
    g.(delayed := DelayedAfter(batch.before, after))
  }

  function Probed(s: Fence, b: nat, probe: Probe): Fence
    requires b in s.batches && s.batches[b].expected.Some?
  {
    var batch := s.batches[b];
    if !EchoesSlices(batch.events, batch.expected.value) || probe.Threw? then s
    else if EchoesExactly(batch.expected.value, probe.revision) then Ended(s, b, Suppressed)
    else s.(delayed := None)
  }

  function Effect(s: Fence, e: Step): Fence {
    match e
    case Observe(autoPrivate, candidates) => Observed(s, autoPrivate, candidates)
    case Capture(before) => Captured(s, before)
    case Restore(b) => if b in s.batches then Restored(s, b) else s
    case Consume(b) => if b in s.batches then Ended(s, b, Consumed) else s
    case Reconcile(b, after) => if b in s.batches then Reconciled(s, b, after) else s
    case StartProbe(b) =>
      if b in s.batches then s.(batches := s.batches[b := s.batches[b].(expected := s.delayed)]) else s
    case EndProbe(b, probe) => if b in s.batches && s.batches[b].expected.Some? then Probed(s, b, probe) else s
    case ClearDelayed => s.(delayed := None)
    case Reset =>
      s.(pending := [], delayed := None, homes := Rehome(s.homes, Waiting, Discarded), resetAt := s.sequence,
         resetBy := s.step + 1)
  }

  function Next(s: Fence, e: Step): Fence {
    Effect(s, e).(step := s.step + 1)
  }

  function Run(events: seq<Step>): Fence {
    if events == [] then FRESH else Next(Run(events[..|events| - 1]), events[|events| - 1])
  }

  // ---- What every step keeps ----

  ghost predicate Strict(events: seq<Event>) {
    forall i, k | 0 <= i < k < |events| :: events[i].sequence < events[k].sequence
  }

  // The events are the observed ones whose home is `home`, unchanged and in order.
  ghost predicate Holds(events: seq<Event>, observed: seq<Event>, homes: map<nat, Home>, home: Home) {
    && Strict(events)
    && (forall e | e in events :: 1 <= e.sequence <= |observed| && e == observed[e.sequence - 1]
                                  && e.sequence in homes && homes[e.sequence] == home)
    && (forall n | n in homes && homes[n] == home :: Knows(events, n))
  }

  ghost predicate Inv(s: Fence) {
    && |s.observed| == s.sequence
    && (forall i | 0 <= i < |s.observed| :: s.observed[i].sequence == i + 1)
    && (forall n :: n in s.homes <==> 1 <= n <= s.sequence)
    && Holds(s.pending, s.observed, s.homes, Waiting)
    && (forall b | b in s.batches :: b < s.step && Holds(s.batches[b].events, s.observed, s.homes, Taken(b)))
    && (forall n | n in s.homes && s.homes[n].Taken? :: s.homes[n].batch in s.batches)
  }

  lemma {:induction false} InsertAdds(e: Event, sorted: seq<Event>, x: Event)
    ensures x in Insert(e, sorted) <==> x == e || x in sorted
  {
    if sorted != [] && sorted[0].sequence < e.sequence {
      InsertAdds(e, sorted[1..], x);
      assert sorted == [sorted[0]] + sorted[1..];
    }
  }

  lemma {:induction false} InsertKeepsOrder(e: Event, sorted: seq<Event>)
    requires Strict(sorted) && !Knows(sorted, e.sequence)
    ensures Strict(Insert(e, sorted))
  {
    if sorted != [] && sorted[0].sequence < e.sequence {
      var rest, tail := sorted[1..], Insert(e, sorted[1..]);
      assert forall i | 0 <= i < |rest| :: rest[i] == sorted[i + 1];
      InsertKeepsOrder(e, rest);
      assert Insert(e, sorted) == [sorted[0]] + tail;
      hide Insert;
      forall k | 0 <= k < |tail| ensures sorted[0].sequence < tail[k].sequence {
        InsertAdds(e, rest, tail[k]);
      }
    }
  }

  lemma KnowsIsMembership(events: seq<Event>, n: nat)
    ensures Knows(events, n) <==> exists e :: e in events && e.sequence == n
  {}

  lemma {:induction false} InsertAllKeepsOrder(events: seq<Event>, sorted: seq<Event>)
    requires Strict(events) && Strict(sorted) && forall e | e in events :: !Knows(sorted, e.sequence)
    ensures Strict(InsertAll(events, sorted))
    ensures forall x :: x in InsertAll(events, sorted) <==> x in events || x in sorted
  {
    if events != [] {
      var first, rest := events[0], events[1..];
      assert events == [first] + rest;
      assert forall i | 0 <= i < |rest| :: rest[i] == events[i + 1];
      InsertAllKeepsOrder(rest, sorted);
      var inserted := InsertAll(rest, sorted);
      KnowsIsMembership(inserted, first.sequence);
      KnowsIsMembership(sorted, first.sequence);
      InsertKeepsOrder(first, inserted);
      forall x ensures x in Insert(first, inserted) <==> x == first || x in inserted { InsertAdds(first, inserted, x); }
    }
  }

  lemma {:induction false} NothingKnown(events: seq<Event>, pending: seq<Event>)
    requires forall e | e in events :: !Knows(pending, e.sequence)
    ensures Unknown(events, pending) == events
  {
    if events != [] {
      assert events == [events[0]] + events[1..];
      NothingKnown(events[1..], pending);
    }
  }

  // What comes back takes its place among what arrived meanwhile: sorted, complete, nothing twice.
  lemma PutBackHolds(s: Fence, b: nat)
    requires Inv(s) && b in s.batches
    ensures Holds(PutBack(s.batches[b].events, s.pending), s.observed, Rehome(s.homes, Taken(b), Waiting), Waiting)
  {
    var events, pending := s.batches[b].events, s.pending;
    forall e | e in events ensures !Knows(pending, e.sequence) {
      KnowsIsMembership(pending, e.sequence);
    }
    NothingKnown(events, pending);
    InsertAllKeepsOrder(events, pending);
    var after, homes := PutBack(events, pending), Rehome(s.homes, Taken(b), Waiting);
    forall n | n in homes && homes[n] == Waiting ensures Knows(after, n) {
      KnowsIsMembership(after, n);
      KnowsIsMembership(events, n);
      KnowsIsMembership(pending, n);
    }
  }

  lemma OtherHolds(events: seq<Event>, observed: seq<Event>, homes: map<nat, Home>, home: Home, from: Home, to: Home)
    requires Holds(events, observed, homes, home) && home != from && home != to
    ensures Holds(events, observed, Rehome(homes, from, to), home)
  {}

  lemma MovedHolds(events: seq<Event>, observed: seq<Event>, homes: map<nat, Home>, from: Home, to: Home)
    requires Holds(events, observed, homes, from) && from != to && forall n | n in homes :: homes[n] != to
    ensures Holds(events, observed, Rehome(homes, from, to), to)
    ensures Holds([], observed, Rehome(homes, from, to), from)
  {}

  lemma OthersHoldOn(e: Event, events: seq<Event>, observed: seq<Event>, homes: map<nat, Home>, home: Home)
    requires e.sequence == |observed| + 1 && Holds(events, observed, homes, home) && home != Waiting
    ensures Holds(events, observed + [e], homes[e.sequence := Waiting], home)
  {}

  lemma PendingStaysStrict(e: Event, events: seq<Event>)
    requires Strict(events) && forall x | x in events :: x.sequence < e.sequence
    ensures Strict(events + [e])
  {}

  lemma MoreIsKnown(e: Event, events: seq<Event>, n: nat)
    ensures Knows(events + [e], n) <==> Knows(events, n) || n == e.sequence
  {
    if i :| 0 <= i < |events| && events[i].sequence == n { assert (events + [e])[i].sequence == n; }
    assert (events + [e])[|events|].sequence == e.sequence;
  }

  lemma PendingHoldsMore(e: Event, events: seq<Event>, observed: seq<Event>, homes: map<nat, Home>)
    requires e.sequence == |observed| + 1 && Holds(events, observed, homes, Waiting)
    ensures Holds(events + [e], observed + [e], homes[e.sequence := Waiting], Waiting)
  {
    hide Knows, Strict;
    PendingStaysStrict(e, events);
    forall n ensures Knows(events + [e], n) <==> Knows(events, n) || n == e.sequence { MoreIsKnown(e, events, n); }
  }

  lemma ObserveKeepsInv(s: Fence, autoPrivate: bool, candidates: seq<Slice>)
    requires Inv(s)
    ensures Inv(Observed(s, autoPrivate, candidates).(step := s.step + 1))
  {
    hide Holds;
    var e := Event(s.sequence + 1, autoPrivate, candidates);
    PendingHoldsMore(e, s.pending, s.observed, s.homes);
    forall b | b in s.batches
      ensures Holds(s.batches[b].events, s.observed + [e], s.homes[e.sequence := Waiting], Taken(b))
    {
      OthersHoldOn(e, s.batches[b].events, s.observed, s.homes, Taken(b));
    }
  }

  lemma CaptureKeepsInv(s: Fence, before: Option<Snapshot>)
    requires Inv(s)
    ensures Inv(Captured(s, before).(step := s.step + 1))
  {
    MovedHolds(s.pending, s.observed, s.homes, Waiting, Taken(s.step));
    forall b | b in s.batches
      ensures Holds(s.batches[b].events, s.observed, Rehome(s.homes, Waiting, Taken(s.step)), Taken(b))
    {
      OtherHolds(s.batches[b].events, s.observed, s.homes, Taken(b), Waiting, Taken(s.step));
    }
    hide Holds;
  }

  lemma RestoreKeepsInv(s: Fence, b: nat)
    requires Inv(s) && b in s.batches
    ensures Inv(Restored(s, b).(step := s.step + 1))
  {
    hide Holds, PutBack, Rehome;
    PutBackHolds(s, b);
    NoLongerTaken(s.homes, b, Waiting);
    forall c | c in s.batches && c != b
      ensures Holds(s.batches[c].events, s.observed, Rehome(s.homes, Taken(b), Waiting), Taken(c))
    {
      OtherHolds(s.batches[c].events, s.observed, s.homes, Taken(c), Taken(b), Waiting);
    }
  }

  lemma EndKeepsInv(s: Fence, b: nat, home: Home)
    requires Inv(s) && b in s.batches && (home.Suppressed? || home.Consumed?)
    ensures Inv(Ended(s, b, home).(step := s.step + 1))
  {
    hide Holds, Rehome;
    OtherHolds(s.pending, s.observed, s.homes, Waiting, Taken(b), home);
    NoLongerTaken(s.homes, b, home);
    forall c | c in s.batches && c != b
      ensures Holds(s.batches[c].events, s.observed, Rehome(s.homes, Taken(b), home), Taken(c))
    {
      OtherHolds(s.batches[c].events, s.observed, s.homes, Taken(c), Taken(b), home);
    }
  }

  lemma NoLongerTaken(homes: map<nat, Home>, b: nat, home: Home)
    requires !home.Taken?
    ensures Rehome(homes, Taken(b), home).Keys == homes.Keys
    ensures forall n | n in homes && Rehome(homes, Taken(b), home)[n].Taken? ::
              Rehome(homes, Taken(b), home)[n] == homes[n] && homes[n] != Taken(b)
  {}

  lemma ResetKeepsInv(s: Fence)
    requires Inv(s)
    ensures Inv(Next(s, Reset))
  {
    forall b | b in s.batches
      ensures Holds(s.batches[b].events, s.observed, Rehome(s.homes, Waiting, Discarded), Taken(b))
    {
      OtherHolds(s.batches[b].events, s.observed, s.homes, Taken(b), Waiting, Discarded);
    }
  }

  // What is expected is not part of the invariant.
  lemma ExpectingKeepsInv(s: Fence, delayed: Option<Delayed>)
    requires Inv(s)
    ensures Inv(s.(delayed := delayed)) && Inv(s.(step := s.step + 1))
  {
    hide Holds;
  }

  lemma ProbeKeepsInv(s: Fence, b: nat)
    requires Inv(s) && b in s.batches
    ensures Inv(s.(batches := s.batches[b := s.batches[b].(expected := s.delayed)]))
  {
    hide Holds;
  }

  lemma ReconcileKeepsInv(s: Fence, b: nat, after: Option<Snapshot>)
    requires Inv(s) && b in s.batches
    ensures Inv(Next(s, Reconcile(b, after)))
  {
    hide Inv, MatchesExplicitRefresh, DelayedAfter, Restored, Ended;
    RestoreKeepsInv(s, b);
    EndKeepsInv(s, b, Suppressed);
    var delayed := DelayedAfter(s.batches[b].before, after);
    ExpectingKeepsInv(Restored(s, b).(step := s.step + 1), delayed);
    ExpectingKeepsInv(Ended(s, b, Suppressed).(step := s.step + 1), delayed);
    StepIsKept(s, b);
  }

  lemma StepIsKept(s: Fence, b: nat)
    requires b in s.batches
    ensures Restored(s, b).step == s.step && forall home :: Ended(s, b, home).step == s.step
  {
    hide PutBack, Rehome;
  }

  lemma StepKeepsInv(s: Fence, e: Step)
    requires Inv(s)
    ensures Inv(Next(s, e))
  {
    hide Inv, Captured, Observed, Restored, Ended, Reconciled, EchoesSlices, EchoesExactly;
    ExpectingKeepsInv(s, None);
    match e
    case Observe(autoPrivate, candidates) =>
      ObserveKeepsInv(s, autoPrivate, candidates);
      ObservingKeepsStep(s, autoPrivate, candidates);
    case Capture(before) => CaptureKeepsInv(s, before); CapturingKeepsStep(s, before);
    case Restore(b) => if b in s.batches { RestoreKeepsInv(s, b); StepIsKept(s, b); }
    case Consume(b) => if b in s.batches { EndKeepsInv(s, b, Consumed); StepIsKept(s, b); }
    case Reconcile(b, after) => if b in s.batches { ReconcileKeepsInv(s, b, after); }
    case StartProbe(b) =>
      if b in s.batches {
        ProbeKeepsInv(s, b);
        ExpectingKeepsInv(s.(batches := s.batches[b := s.batches[b].(expected := s.delayed)]), None);
      }
    case EndProbe(b, probe) =>
      ExpectingKeepsInv(s.(delayed := None), None);
      if b in s.batches { EndKeepsInv(s, b, Suppressed); StepIsKept(s, b); }
    case ClearDelayed => ExpectingKeepsInv(s.(delayed := None), None);
    case Reset => ResetKeepsInv(s);
  }

  lemma ObservingKeepsStep(s: Fence, autoPrivate: bool, candidates: seq<Slice>)
    ensures Observed(s, autoPrivate, candidates).step == s.step
  {}

  lemma CapturingKeepsStep(s: Fence, before: Option<Snapshot>)
    ensures Captured(s, before).step == s.step
  {}

  // Every observed event is, unchanged, in exactly one place: pending, in one batch, suppressed, handed
  // to the ordinary refresh, or discarded by a reset; and what is pending is in the order observed.
  lemma {:induction false} EventsAreConserved(events: seq<Step>)
    ensures Inv(Run(events)) && Run(events).step == |events|
  {
    hide Next, Inv;
    if events == [] {
      assert Inv(FRESH) by { FreshIsOk(); }
    } else {
      EventsAreConserved(events[..|events| - 1]);
      StepKeepsInv(Run(events[..|events| - 1]), events[|events| - 1]);
      NextSteps(Run(events[..|events| - 1]), events[|events| - 1]);
    }
  }

  lemma FreshIsOk()
    ensures Inv(FRESH)
  {}

  lemma NextSteps(s: Fence, e: Step)
    ensures Next(s, e).step == s.step + 1
  {}

  // ---- Suppression ----

  // The step proves that the batch holding event `n` was incorporated in what is shown.
  ghost predicate ProvedBy(s: Fence, e: Step, n: nat) {
    n in s.homes && s.homes[n].Taken? && s.homes[n].batch in s.batches &&
    var b := s.homes[n].batch;
    match e
    case Reconcile(c, after) => c == b && MatchesExplicitRefresh(s.batches[b].events, s.batches[b].before, after)
    case EndProbe(c, Answered(revision)) =>
      && c == b && s.batches[b].expected.Some? && EchoesSlices(s.batches[b].events, s.batches[b].expected.value)
      && EchoesExactly(s.batches[b].expected.value, revision)
    case _ => false
  }

  // An event is dropped exactly when a step proves its batch incorporated, and never otherwise.
  lemma OnlyProofSuppresses(s: Fence, e: Step, n: nat)
    requires Inv(s) && n in s.homes && s.homes[n] != Suppressed
    ensures var g := Next(s, e); n in g.homes && (g.homes[n] == Suppressed <==> ProvedBy(s, e, n))
  {
    hide Holds, PutBack, MatchesExplicitRefresh, EchoesSlices, EchoesExactly, DelayedAfter;
  }

  lemma BatchStays(s: Fence, e: Step, b: nat)
    requires b in Next(s, e).batches
    ensures var g := Next(s, e);
      if b in s.batches && !(e.Capture? && b == s.step)
      then g.batches[b].events == s.batches[b].events && g.batches[b].before == s.batches[b].before
      else e.Capture? && b == s.step && g.batches[b].events == s.pending && g.batches[b].before == e.before
  {
    hide PutBack, Rehome, MatchesExplicitRefresh, EchoesSlices, EchoesExactly, DelayedAfter;
  }

  // A refresh can only prove what had been observed when it began: a batch never grows.
  lemma {:induction false} BatchesAreOld(events: seq<Step>, b: nat)
    requires b in Run(events).batches
    ensures b < |events| && events[b].Capture?
    ensures Run(events).batches[b].events == Run(events[..b]).pending
    ensures Run(events).batches[b].before == events[b].before
  {
    hide Next, Inv;
    var front := events[..|events| - 1];
    EventsAreConserved(front);
    BatchStays(Run(front), events[|events| - 1], b);
    if events[|front|].Capture? && b == |front| {
      assert events[..b] == front;
    } else {
      BatchesAreOld(front, b);
      assert front[..b] == events[..b];
    }
  }

  lemma LaterEventsStayPending(events: seq<Step>, b: nat, e: Event)
    requires b in Run(events).batches && e in Run(events).batches[b].events
    ensures b < |events| && e.sequence <= Run(events[..b]).sequence
  {
    BatchesAreOld(events, b);
    EventsAreConserved(events[..b]);
    hide Run;
  }

  // ---- The boundary a reset draws ----

  ghost predicate SinceReset(events: seq<Event>, resetAt: nat) {
    forall e | e in events :: resetAt < e.sequence
  }

  // The step puts back events of a batch that was taken before the latest reset.
  ghost predicate PutsBackStale(s: Fence, e: Step) {
    (e.Restore? || e.Reconcile?) && e.batch in s.batches &&
    var batch := s.batches[e.batch];
    && batch.events != [] && e.batch < s.resetBy
    && (e.Reconcile? ==> !MatchesExplicitRefresh(batch.events, batch.before, e.after))
  }

  // Batches taken before the latest reset hold only older events; as long as the boundary was kept, those
  // taken after it hold only newer ones.
  ghost predicate Apart(pending: seq<Event>, batches: map<nat, Batch>, resetAt: nat, resetBy: nat, kept: bool) {
    && (kept ==> SinceReset(pending, resetAt))
    && forall b | b in batches ::
         if b < resetBy then forall e | e in batches[b].events :: e.sequence <= resetAt
         else kept ==> SinceReset(batches[b].events, resetAt)
  }

  ghost predicate Sorted(s: Fence, kept: bool) {
    s.resetAt <= s.sequence && s.resetBy <= s.step && Apart(s.pending, s.batches, s.resetAt, s.resetBy, kept)
  }

  lemma PutBackIsBoth(s: Fence, b: nat, x: Event)
    requires Inv(s) && b in s.batches
    ensures x in PutBack(s.batches[b].events, s.pending) <==> x in s.batches[b].events || x in s.pending
  {
    var events, pending := s.batches[b].events, s.pending;
    forall e | e in events ensures !Knows(pending, e.sequence) {
      KnowsIsMembership(pending, e.sequence);
    }
    NothingKnown(events, pending);
    InsertAllKeepsOrder(events, pending);
    hide Holds;
  }

  lemma HeldIsObserved(s: Fence, b: nat)
    requires Inv(s)
    ensures forall e | e in s.pending :: e.sequence <= s.sequence
    ensures b in s.batches ==> forall e | e in s.batches[b].events :: e.sequence <= s.sequence
  {}

  lemma RestoredApart(s: Fence, b: nat, kept: bool)
    requires Inv(s) && Sorted(s, kept) && b in s.batches
    ensures Apart(PutBack(s.batches[b].events, s.pending), s.batches - {b}, s.resetAt, s.resetBy,
                  kept && (s.batches[b].events == [] || s.resetBy <= b))
  {
    hide PutBack, Inv;
    forall x ensures x in PutBack(s.batches[b].events, s.pending) <==> x in s.batches[b].events || x in s.pending {
      PutBackIsBoth(s, b, x);
    }
  }

  lemma ResetApart(s: Fence, kept: bool)
    requires Inv(s)
    ensures Apart([], s.batches, s.sequence, s.step + 1, kept)
  {
    forall b | b in s.batches ensures forall x | x in s.batches[b].events :: x.sequence <= s.sequence {
      HeldIsObserved(s, b);
    }
    hide Holds;
  }

  lemma ObservedApart(pending: seq<Event>, e: Event, batches: map<nat, Batch>, resetAt: nat, resetBy: nat, kept: bool)
    requires Apart(pending, batches, resetAt, resetBy, kept) && resetAt < e.sequence
    ensures Apart(pending + [e], batches, resetAt, resetBy, kept)
  {}

  lemma CapturedApart(pending: seq<Event>, batches: map<nat, Batch>, resetAt: nat, resetBy: nat, kept: bool,
                      b: nat, before: Option<Snapshot>)
    requires Apart(pending, batches, resetAt, resetBy, kept) && resetBy <= b
    ensures Apart([], batches[b := Batch(pending, before, None)], resetAt, resetBy, kept)
  {}

  lemma OthersApart(pending: seq<Event>, batches: map<nat, Batch>, resetAt: nat, resetBy: nat, kept: bool, b: nat)
    requires Apart(pending, batches, resetAt, resetBy, kept)
    ensures Apart(pending, batches, resetAt, resetBy, false) && Apart(pending, batches - {b}, resetAt, resetBy, kept)
    ensures b in batches ==> forall delayed: Option<Delayed> ::
              Apart(pending, batches[b := batches[b].(expected := delayed)], resetAt, resetBy, kept)
  {}

  lemma NextSorts(s: Fence, e: Step, kept: bool)
    requires Inv(s) && Sorted(s, kept)
    ensures Sorted(Next(s, e), kept && !PutsBackStale(s, e))
  {
    hide Inv, Apart, PutBack, Rehome, MatchesExplicitRefresh, EchoesSlices, EchoesExactly, DelayedAfter;
    if e.Consume? || e.Reconcile? || e.StartProbe? || e.EndProbe? {
      OthersApart(s.pending, s.batches, s.resetAt, s.resetBy, kept, e.batch);
    }
    match e
    case Observe(autoPrivate, candidates) =>
      ObservedApart(s.pending, Event(s.sequence + 1, autoPrivate, candidates), s.batches, s.resetAt, s.resetBy, kept);
    case Capture(before) => CapturedApart(s.pending, s.batches, s.resetAt, s.resetBy, kept, s.step, before);
    case Restore(b) => if b in s.batches { RestoredApart(s, b, kept); }
    case Reconcile(b, _) => if b in s.batches { RestoredApart(s, b, kept); }
    case Reset => ResetApart(s, kept);
    case _ =>
  }

  // Something that was put back from before the reset is pending right after.
  lemma StaleIsPending(s: Fence, e: Step)
    requires Inv(s) && Sorted(s, false) && PutsBackStale(s, e)
    ensures !SinceReset(Next(s, e).pending, Next(s, e).resetAt)
  {
    hide Holds, PutBack, Rehome, MatchesExplicitRefresh, DelayedAfter;
    var old' := s.batches[e.batch].events[0];
    PutBackIsBoth(s, e.batch, old');
    assert old' in s.batches[e.batch].events && old'.sequence <= s.resetAt;
    assert old' in Next(s, e).pending;
  }

  ghost predicate NothingStale(events: seq<Step>, n: nat)
    requires n <= |events|
  {
    forall k | 0 <= k < n :: !PutsBackStale(Run(events[..k]), events[k])
  }

  lemma NothingStaleMore(events: seq<Step>)
    requires events != []
    ensures var front := events[..|events| - 1];
      NothingStale(events, |events|) <==>
        NothingStale(front, |front|) && !PutsBackStale(Run(front), events[|front|])
  {
    hide Run, PutsBackStale;
    var front := events[..|events| - 1];
    assert forall k | 0 <= k < |front| :: front[..k] == events[..k] && front[k] == events[k];
  }

  lemma RunExtends(events: seq<Step>, k: nat)
    requires k < |events|
    ensures Run(events[..k + 1]) == Next(Run(events[..k]), events[k])
  {
    assert events[..k + 1][..k] == events[..k];
  }

  lemma {:induction false} RunSorts(events: seq<Step>)
    ensures Inv(Run(events)) && Sorted(Run(events), NothingStale(events, |events|))
  {
    hide Run, Next, Inv, PutsBackStale, Sorted, NothingStale;
    EventsAreConserved(events);
    if events == [] {
      NothingYet();
    } else {
      var front := events[..|events| - 1];
      RunSorts(front);
      NothingStaleMore(events);
      RunExtends(events, |front|);
      assert events[..|events|] == events;
      NextSorts(Run(front), events[|front|], NothingStale(front, |front|));
    }
  }

  lemma NothingYet()
    ensures Sorted(Run([]), true) && NothingStale([], 0)
  {}

  // Nothing observed before the latest reset is ever pending again if and only if no event of a batch
  // taken before a reset is put back after it.
  lemma ResetIsABoundary(events: seq<Step>)
    ensures (forall n | 0 <= n <= |events| :: SinceReset(Run(events[..n]).pending, Run(events[..n]).resetAt)) <==>
            NothingStale(events, |events|)
  {
    hide Run, Next, Inv, PutsBackStale, SinceReset;
    if NothingStale(events, |events|) {
      forall n | 0 <= n <= |events| ensures SinceReset(Run(events[..n]).pending, Run(events[..n]).resetAt) {
        RunSorts(events[..n]);
        assert forall k | 0 <= k < n :: events[..n][..k] == events[..k] && events[..n][k] == events[k];
      }
    } else {
      var k :| 0 <= k < |events| && PutsBackStale(Run(events[..k]), events[k]);
      RunSorts(events[..k]);
      var s := Run(events[..k]);
      OthersApart(s.pending, s.batches, s.resetAt, s.resetBy, NothingStale(events[..k], k), 0);
      StaleIsPending(Run(events[..k]), events[k]);
      RunExtends(events, k);
    }
  }

  // While the boundary has been kept, putting a batch back keeps it if and only if the batch is empty or
  // was taken after the latest reset.
  lemma RestoreRespectsReset(events: seq<Step>, b: nat)
    requires b in Run(events).batches && NothingStale(events, |events|)
    ensures var s := Run(events);
      SinceReset(Restored(s, b).pending, s.resetAt) <==> s.batches[b].events == [] || s.resetBy <= b
  {
    hide Run, Next, Inv, PutBack, Holds, Rehome;
    RunSorts(events);
    var s := Run(events);
    forall x ensures x in PutBack(s.batches[b].events, s.pending) <==> x in s.batches[b].events || x in s.pending {
      PutBackIsBoth(s, b, x);
    }
    if s.batches[b].events != [] { assert s.batches[b].events[0] in s.batches[b].events; }
  }

  // That happens: a batch taken before a reset and put back after it brings the other repository's event
  // into the fence.
  lemma StaleBatchCrossesReset(s: Fence, autoPrivate: bool, candidates: seq<Slice>)
    requires s == FRESH
    ensures var taken := Next(Next(s, Observe(autoPrivate, candidates)), Capture(None));
            var crossed := Next(Next(taken, Reset), Restore(1));
      crossed.pending == [Event(1, autoPrivate, candidates)] && crossed.resetAt == 1 && !SinceReset(crossed.pending, 1)
  {
    var e := Event(1, autoPrivate, candidates);
    var taken := Next(Next(s, Observe(autoPrivate, candidates)), Capture(None));
    assert taken.batches[1].events == [e];
    var reset := Next(taken, Reset);
    assert reset.batches[1].events == [e] && reset.pending == [];
    assert [e][1..] == [];
    assert Unknown([e], []) == [e] + Unknown([e][1..], []);
    assert InsertAll([e], []) == Insert(e, InsertAll([e][1..], []));
    assert PutBack([e], []) == [e];
    assert e in [e];
  }

  // ---- What an echo is expected on account of ----

  ghost predicate Replaces(s: Fence, e: Step) {
    e.Reset? || e.ClearDelayed? || (e.Reconcile? && e.batch in s.batches)
  }

  // The refresh that ended in event `k` left the expectation, and nothing replaced or cleared it since.
  ghost predicate ExpectedSince(events: seq<Step>, k: nat) {
    && k < |events| && events[k].Reconcile? && events[k].batch in Run(events[..k]).batches
    && Run(events).delayed == DelayedAfter(Run(events[..k]).batches[events[k].batch].before, events[k].after)
    && forall j | k < j < |events| :: !Replaces(Run(events[..j]), events[j])
  }

  lemma ExpectationMoves(s: Fence, e: Step)
    ensures var g := Next(s, e);
      if e.Reconcile? && e.batch in s.batches then g.delayed == DelayedAfter(s.batches[e.batch].before, e.after)
      else g.delayed == s.delayed || g.delayed == None
    ensures Replaces(s, e) && !e.Reconcile? ==> Next(s, e).delayed == None
  {
    hide PutBack, Rehome, MatchesExplicitRefresh, EchoesSlices, EchoesExactly, DelayedAfter;
  }

  lemma ExpectedStill(events: seq<Step>, e: Step, k: nat)
    requires ExpectedSince(events, k) && !Replaces(Run(events), e) && Run(events + [e]).delayed == Run(events).delayed
    ensures ExpectedSince(events + [e], k)
  {
    hide Run, Replaces, DelayedAfter;
    var all := events + [e];
    assert forall j | 0 <= j <= |events| :: all[..j] == events[..j];
    assert forall j | 0 <= j < |events| :: all[j] == events[j];
  }

  // An echo is only ever expected on account of a refresh that ended after the latest reset and after the
  // expectation was last cleared, of the latest such refresh.
  lemma {:induction false} ExpectationIsRecent(events: seq<Step>)
    requires Run(events).delayed.Some?
    ensures exists k :: ExpectedSince(events, k)
  {
    hide Next, Replaces, DelayedAfter, ExpectedSince;
    var front, last := events[..|events| - 1], events[|events| - 1];
    assert events == front + [last];
    ExpectationMoves(Run(front), last);
    if Replaces(Run(front), last) {
      ExpectedNow(front, last);
    } else {
      NotReplaced(Run(front), last);
      ExpectationIsRecent(front);
      var k :| ExpectedSince(front, k);
      ExpectedStill(front, last, k);
    }
  }

  lemma NotReplaced(s: Fence, e: Step)
    ensures !Replaces(s, e) ==> !(e.Reconcile? && e.batch in s.batches)
  {}

  lemma ExpectedNow(events: seq<Step>, e: Step)
    requires Replaces(Run(events), e) && Run(events + [e]).delayed.Some?
    ensures ExpectedSince(events + [e], |events|)
  {
    hide Next, DelayedAfter;
    var all := events + [e];
    assert all[..|events|] == events;
    ExpectationMoves(Run(events), e);
  }

  // ---- The fence itself ----

  class RevisionSliceWatcherFence {
    var sequence: nat
    var pending: seq<Event>
    var delayed: Option<Delayed>
    // The batches that callers hold, and history for the theorems.
    ghost var batches: map<nat, Batch>
    ghost var observed: seq<Event>
    ghost var homes: map<nat, Home>
    ghost var resetAt: nat
    ghost var resetBy: nat
    ghost var step: nat

    ghost function View(): Fence
      reads this
    {
      Fence(sequence, pending, delayed, batches, observed, homes, resetAt, resetBy, step)
    }

    constructor ()
      ensures View() == FRESH
    {
      sequence, pending, delayed := 0, [], None;
      batches, observed, homes, resetAt, resetBy, step := map[], [], map[], 0, 0, 0;
    }

    method ObserveEvent(autoPrivate: bool, candidates: seq<Slice>) returns (event: Event)
      modifies this
      ensures View() == Next(old(View()), Observe(autoPrivate, candidates))
      ensures event == Event(sequence, autoPrivate, candidates)
    {
      sequence := sequence + 1;
      event := Event(sequence, autoPrivate, candidates);
      pending := pending + [event];
      observed, homes, step := observed + [event], homes[sequence := Waiting], step + 1;
    }

    method ResetFence()
      modifies this
      ensures View() == Next(old(View()), Reset)
    {
      pending, delayed := [], None;
      homes, resetAt, resetBy, step := Rehome(homes, Waiting, Discarded), sequence, step + 1, step + 1;
    }

    method ClearDelayedEcho()
      modifies this
      ensures View() == Next(old(View()), ClearDelayed)
    {
      delayed, step := None, step + 1;
    }

    // Only what has been delivered; what arrives during the refresh forms a later batch.
    method CaptureBatch(before: Option<Snapshot>) returns (events: seq<Event>)
      modifies this
      ensures View() == Next(old(View()), Capture(before)) && events == old(pending)
    {
      events := pending;
      pending := [];
      batches := batches[step := Batch(events, before, None)];
      homes, step := Rehome(homes, Waiting, Taken(step)), step + 1;
    }

    method PutEventsBack(events: seq<Event>)
      modifies this`pending
      ensures pending == PutBack(events, old(pending))
    {
      assert events == [] ==> PutBack(events, pending) == InsertAll([], pending);
      if events == [] {
        return;
      }
      var kept: seq<Event> := [];
      var i := |events|;
      while i > 0
        invariant 0 <= i <= |events| && kept == Unknown(events[i..], pending)
      {
        i := i - 1;
        assert events[i..] == [events[i]] + events[i + 1..];
        if !Knows(pending, events[i].sequence) {
          kept := [events[i]] + kept;
        }
      }
      assert events[0..] == events;
      pending := InsertAll(kept, pending);
    }

    method RestoreBatch(events: seq<Event>, ghost b: nat)
      requires b in batches && batches[b].events == events
      modifies this
      ensures View() == Next(old(View()), Restore(b))
    {
      hide PutBack, Rehome;
      PutEventsBack(events);
      batches, homes, step := batches - {b}, Rehome(homes, Taken(b), Waiting), step + 1;
    }

    method SomeAutoPrivate(events: seq<Event>) returns (some: bool)
      ensures some <==> exists e :: e in events && e.autoPrivate
    {
      for i := 0 to |events|
        invariant forall k | 0 <= k < i :: !events[k].autoPrivate
      {
        if events[i].autoPrivate {
          return true;
        }
      }
      return false;
    }

    method FindSlice(candidates: seq<Slice>, known: set<Slice>) returns (found: int)
      ensures -1 <= found < |candidates|
      ensures found >= 0 ==> candidates[found] in known
      ensures forall i | 0 <= i < (if found < 0 then |candidates| else found) :: candidates[i] !in known
    {
      for i := 0 to |candidates|
        invariant forall k | 0 <= k < i :: candidates[k] !in known
      {
        if candidates[i] in known {
          return i;
        }
      }
      return -1;
    }

    // Whether the refresh incorporated the batch.
    method MatchesRefresh(events: seq<Event>, before: Option<Snapshot>, after: Option<Snapshot>)
      returns (matches: bool)
      ensures matches <==>
        && events != [] && before.Some? && after.Some?
        && (forall e | e in events :: !e.autoPrivate)
        && Subject(before.value).Some? && Subject(after.value).Some? && Subject(before.value) != Subject(after.value)
        && forall e | e in events :: Proved(e, Digests(before.value), Digests(after.value))
    {
      if events == [] || before.None? || after.None? {
        return false;
      }
      var autoPrivate := SomeAutoPrivate(events);
      if autoPrivate || Subject(before.value).None? || Subject(after.value).None?
         || Subject(before.value) == Subject(after.value) {
        return false;
      }
      var old', new' := Digests(before.value), Digests(after.value);
      var changed := ChangedSlices(before, after);
      assert events[0] in events;
      forall e: Event, k: nat | Proves(e, old', new', k) ensures e.candidates[k] in changed {
        assert e.candidates[k] in Included(after.value);
      }
      hide ChangedSlices, Digests, Subject;
      if changed == {} {
        return false;
      }
      for i := 0 to |events|
        invariant forall j | 0 <= j < i :: Proved(events[j], old', new')
      {
        var k := FindSlice(events[i].candidates, old'.Keys * new'.Keys);
        assert forall n: nat :: Proves(events[i], old', new', n) ==> n == k;
        if k < 0 || events[i].candidates[k] !in changed
           || old'[events[i].candidates[k]] == new'[events[i].candidates[k]] {
          assert events[i] in events;
          return false;
        }
        assert Proves(events[i], old', new', k);
      }
      return true;
    }

    // The end of an explicit refresh: drop the batch on proof, or put it back.
    method FinishReconcile(events: seq<Event>, before: Option<Snapshot>, after: Option<Snapshot>, ghost b: nat)
      returns (suppressed: bool)
      requires b in batches && batches[b].events == events && batches[b].before == before
      modifies this
      ensures View() == Next(old(View()), Reconcile(b, after))
      ensures suppressed <==>
        && events != [] && before.Some? && after.Some?
        && (forall e | e in events :: !e.autoPrivate)
        && Subject(before.value).Some? && Subject(after.value).Some? && Subject(before.value) != Subject(after.value)
        && forall e | e in events :: Proved(e, Digests(before.value), Digests(after.value))
    {
      hide PutBack, Rehome, ChangedSlices, Proved, MatchesExplicitRefresh, Digests, Subject;
      SuppressionNeedsProof(events, before, after);
      suppressed := MatchesRefresh(events, before, after);
      if !suppressed {
        PutEventsBack(events);
      }
      ghost var home := if suppressed then Suppressed else Waiting;
      batches, homes, step := batches - {b}, Rehome(homes, Taken(b), home), step + 1;
      ExpectEcho(before, after);
    }

    method ExpectEcho(before: Option<Snapshot>, after: Option<Snapshot>)
      modifies this`delayed
      ensures delayed == DelayedAfter(before, after)
    {
      hide ChangedSlices;
      var changed := ChangedSlices(before, after);
      delayed := None;
      if before.Some? && after.Some? && Subject(after.value).Some? && after.value.revision.value.rest != 0 {
        if Subject(before.value) != Subject(after.value) && changed != {} {
          delayed := Some(Delayed(after.value.revision.value, changed));
        }
      }
    }

    method StartProbe(ghost b: nat) returns (expected: Option<Delayed>)
      requires b in batches
      modifies this
      ensures View() == Next(old(View()), Step.StartProbe(b)) && expected == old(delayed)
    {
      expected := delayed;
      batches, step := batches[b := batches[b].(expected := delayed)], step + 1;
    }

    // Whether every event's first known slice is one the refresh changed.
    method EchoesChanges(events: seq<Event>, expected: Delayed) returns (matches: bool)
      ensures matches <==>
        && events != [] && (forall e | e in events :: !e.autoPrivate)
        && forall e | e in events :: Echoed(e, ExpectedDigests(expected).Keys, expected.changed)
    {
      if events == [] {
        return false;
      }
      var autoPrivate := SomeAutoPrivate(events);
      if autoPrivate {
        return false;
      }
      var known := ExpectedDigests(expected).Keys;
      for i := 0 to |events|
        invariant forall j | 0 <= j < i :: Echoed(events[j], known, expected.changed)
      {
        var k := FindSlice(events[i].candidates, known);
        assert forall n: nat :: Echoes(events[i], known, expected.changed, n) ==> n == k;
        if k < 0 || events[i].candidates[k] !in expected.changed {
          assert events[i] in events;
          return false;
        }
        assert Echoes(events[i], known, expected.changed, k);
      }
      return true;
    }

    // The end of a probe against `expected`, which was the delayed echo when the probe began.
    method FinishProbe(events: seq<Event>, expected: Delayed, probe: Probe, ghost b: nat) returns (echo: bool)
      requires b in batches && batches[b].events == events && batches[b].expected == Some(expected)
      modifies this
      ensures View() == Next(old(View()), EndProbe(b, probe))
      ensures echo <==>
        && events != [] && (forall e | e in events :: !e.autoPrivate)
        && (forall e | e in events :: Echoed(e, ExpectedDigests(expected).Keys, expected.changed))
        && probe.Answered? && probe.revision.Some?
        && probe.revision.value.rest == expected.revision.rest && probe.revision.value.rest != 0
    {
      hide Rehome, Echoed, ExpectedDigests, EchoesSlices;
      EchoesNeedProof(events, expected);
      var matches := EchoesChanges(events, expected);
      echo := matches && probe.Answered? && probe.revision.Some?
              && probe.revision.value.rest == expected.revision.rest && probe.revision.value.rest != 0;
      if matches && probe.Answered? && !echo {
        delayed := None;
      }
      step := step + 1;
      if echo {
        batches, homes := batches - {b}, Rehome(homes, Taken(b), Suppressed);
      }
    }
  }
}
