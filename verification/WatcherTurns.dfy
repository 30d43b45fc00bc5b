// What each step of the watcher fence does on the way on which nothing goes wrong: what is observed waits, a
// capture takes it, a refresh that moved the repository expects its echo, and the echo is dropped.
module WatcherTurns {
  import opened Snapshots
  import opened WatcherFences
  import opened Wrappers

  // An observed event waits behind the others, under the next number, as it was observed.
  lemma ObservedEventsWait(s: Fence, autoPrivate: bool, candidates: seq<Slice>)
    ensures var g := Next(s, Observe(autoPrivate, candidates));
      && g.pending == s.pending + [Event(s.sequence + 1, autoPrivate, candidates)] && g.sequence == s.sequence + 1
      && g.delayed == s.delayed && g.batches == s.batches
  {}

  // A capture takes everything that waits, and remembers what was shown.
  lemma CapturesTakeAll(s: Fence, before: Option<Snapshot>)
    ensures var g := Next(s, Capture(before));
      && g.pending == [] && g.batches == s.batches[s.step := Batch(s.pending, before, None)]
      && g.delayed == s.delayed && g.sequence == s.sequence
  {}

  // A batch that is put back is gone, and each of its events waits again among those observed since.
  lemma RestoredEventsWait(s: Fence, b: nat, e: Event)
    requires Inv(s) && b in s.batches
    ensures var g := Next(s, Restore(b));
      && g.batches == s.batches - {b} && g.delayed == s.delayed
      && (e in g.pending <==> e in s.pending || e in s.batches[b].events)
  {
    hide Inv;
    PutBackMembers(s.batches[b].events, s.pending, e);
    if e in s.batches[b].events { TakenIsUnknown(s, b, e); }
  }

  lemma {:induction false} InsertMembers(x: Event, sorted: seq<Event>, e: Event)
    ensures e in Insert(x, sorted) <==> e == x || e in sorted
  {
    if !(sorted == [] || x.sequence <= sorted[0].sequence) {
      InsertMembers(x, sorted[1..], e);
      assert e in sorted <==> e == sorted[0] || e in sorted[1..];
    }
  }

  lemma {:induction false} InsertAllMembers(events: seq<Event>, sorted: seq<Event>, e: Event)
    ensures e in InsertAll(events, sorted) <==> e in events || e in sorted
  {
    if events != [] {
      InsertAllMembers(events[1..], sorted, e);
      InsertMembers(events[0], InsertAll(events[1..], sorted), e);
      assert e in events <==> e == events[0] || e in events[1..];
    }
  }

  lemma {:induction false} UnknownMembers(events: seq<Event>, pending: seq<Event>, e: Event)
    ensures e in Unknown(events, pending) <==> e in events && !Knows(pending, e.sequence)
  {
    hide Knows;
    if events != [] {
      UnknownMembers(events[1..], pending, e);
      assert e in events <==> e == events[0] || e in events[1..];
    }
  }

  lemma PutBackMembers(events: seq<Event>, pending: seq<Event>, e: Event)
    ensures e in PutBack(events, pending) <==> (e in events && !Knows(pending, e.sequence)) || e in pending
  {
    hide Knows, InsertAll, Unknown;
    UnknownMembers(events, pending, e);
    InsertAllMembers(Unknown(events, pending), pending, e);
  }

  lemma TakenIsUnknown(s: Fence, b: nat, e: Event)
    requires Inv(s) && b in s.batches && e in s.batches[b].events
    ensures !Knows(s.pending, e.sequence)
  {
    forall i | 0 <= i < |s.pending| ensures s.pending[i].sequence != e.sequence {
      assert s.pending[i] in s.pending;
    }
  }

  // The end of an explicit refresh ends its batch: dropped if it is proved to be incorporated, put back if not.
  lemma RefreshesEndTheirBatch(s: Fence, b: nat, after: Option<Snapshot>, e: Event)
    requires Inv(s) && b in s.batches
    ensures var g, batch := Next(s, Reconcile(b, after)), s.batches[b];
      && g.batches == s.batches - {b}
      && (e in g.pending <==>
            e in s.pending || (e in batch.events && !MatchesExplicitRefresh(batch.events, batch.before, after)))
  {
    hide Inv, MatchesExplicitRefresh, DelayedAfter, PutBack;
    RestoredEventsWait(s, b, e);
  }

  // A batch handed to the ordinary refresh is gone, and nothing waits again.
  lemma ConsumedBatchesAreGone(s: Fence, b: nat)
    requires b in s.batches
    ensures var g := Next(s, Consume(b));
      g.batches == s.batches - {b} && g.pending == s.pending && g.delayed == s.delayed
  {}

  // What an explicit refresh that showed `after` instead of `before` leaves to be echoed: everything it changed,
  // provided the repository moved and the worktree has a hash to compare a probe with.
  predicate LeavesEcho(before: Option<Snapshot>, after: Option<Snapshot>) {
    && before.Some? && after.Some? && Subject(after.value).Some? && Subject(after.value) != Subject(before.value)
    && after.value.revision.Some? && after.value.revision.value.rest != 0 && ChangedSlices(before, after) != {}
  }

  // The probe answered, and not with branch, head and worktree as they were expected.
  predicate FindsAnother(expected: Delayed, probe: Probe) {
    probe.Answered? &&
    (probe.revision.None? || probe.revision.value.rest == 0 || probe.revision.value.rest != expected.revision.rest)
  }

  // An echo comes to be expected exactly by an explicit refresh that leaves one, as that refresh left things. It
  // is expected no more after any other explicit refresh, a clearing, a reset, and a probe that was made for a
  // batch of nothing but echoes and finds something else.
  lemma ExpectationMoves(s: Fence, e: Step)
    ensures Next(s, e).delayed ==
      match e
      case Reconcile(b, after) =>
        if b !in s.batches then s.delayed
        else if LeavesEcho(s.batches[b].before, after)
        then Some(Delayed(after.value.revision.value, ChangedSlices(s.batches[b].before, after))) else None
      case ClearDelayed => None
      case Reset => None
      case EndProbe(b, probe) =>
        if b in s.batches && s.batches[b].expected.Some? && FindsAnother(s.batches[b].expected.value, probe)
           && s.batches[b].events != [] && (forall x | x in s.batches[b].events :: !x.autoPrivate)
           && (forall x | x in s.batches[b].events ::
                 Echoed(x, ExpectedDigests(s.batches[b].expected.value).Keys, s.batches[b].expected.value.changed))
        then None else s.delayed
      case _ => s.delayed
  {
    hide Echoed, EchoesSlices, ChangedSlices, PutBack, Rehome, MatchesExplicitRefresh;
    if e.EndProbe? && e.batch in s.batches && s.batches[e.batch].expected.Some? {
      EchoesNeedProof(s.batches[e.batch].events, s.batches[e.batch].expected.value);
    }
  }

  // A probe is made against what was expected when it started.
  lemma ProbesRemember(s: Fence, b: nat)
    requires b in s.batches
    ensures var g := Next(s, StartProbe(b));
      g.batches == s.batches[b := Batch(s.batches[b].events, s.batches[b].before, s.delayed)]
      && g.pending == s.pending && g.delayed == s.delayed
  {}

  // The echo of an explicit refresh is dropped: a batch in which the first known slice of every event is one the
  // refresh changed, when the probe finds things as the refresh left them. The expectation stays for what the
  // same refresh may still echo.
  lemma EchoesAreDropped(s: Fence, b: nat, actual: Revision, n: nat)
    requires Inv(s) && b in s.batches && s.batches[b].expected.Some?
    requires var expected := s.batches[b].expected.value;
      && s.batches[b].events != [] && (forall x | x in s.batches[b].events :: !x.autoPrivate)
      && (forall x | x in s.batches[b].events :: Echoed(x, ExpectedDigests(expected).Keys, expected.changed))
      && actual.rest != 0 && actual.rest == expected.revision.rest
    requires n in s.homes && s.homes[n] == Taken(b)
    ensures var g := Next(s, EndProbe(b, Answered(Some(actual))));
      && g.batches == s.batches - {b} && g.delayed == s.delayed && g.pending == s.pending
      && n in g.homes && g.homes[n] == Suppressed
  {
    hide Echoed, EchoesSlices, Inv;
    EchoesNeedProof(s.batches[b].events, s.batches[b].expected.value);
  }
}
