// When a retained panel renders, and what the store tells it.
module PanelTurns {
  import opened Snapshots
  import opened WorkspaceStores
  import opened StoreReceipts
  import opened StoreRuns
  import opened StoreTurns
  import opened RenderGates
  import opened Wrappers

  // The change may have moved what the panel shows: it is not about loading, and if it names the slices of a
  // snapshot and the panel those it renders, they have one in common.
  predicate Concerns(change: Change, sliced: bool, relevant: set<Slice>) {
    !change.kind.LoadingChanged? &&
    (change.kind.SnapshotRead? && sliced && relevant != {} ==> exists x :: x in relevant && x in change.slices)
  }

  // A panel renders the store's latest state when it is told of a change that concerns it and is visible, and
  // when it is announced as visible with such a change pending, and at no other time; while it is hidden such a
  // change is remembered, until it renders or the user has it rendered.
  lemma PanelsRenderWhen(p: Panel, e: PanelEvent, relevant: set<Slice>)
    ensures var g := PanelStep(p, e, relevant);
            var told := e.Changed? && !p.disposed && Concerns(e.change, e.sliced, relevant);
            var revealed := e.Announce? && !p.disposed && p.visible && p.pending;
      && g.current == (if e.Changed? then e.next else p.current)
      && g.renders == p.renders + (if (told && p.visible) || revealed then 1 else 0)
      && g.rendered == (if (told && p.visible) || revealed || (e.Rendered? && !p.disposed) then g.current
                        else p.rendered)
      && (g.pending <==>
            || (told && !p.visible)
            || (p.pending && !revealed && !e.Dispose? && !(e.Rendered? && !p.disposed)))
      && (g.visible <==> e.Reveal? || (p.visible && !e.Hide?))
      && (g.disposed <==> e.Dispose? || p.disposed)
  {
    if e.Changed? { ConcernsUnlessIgnored(e.change, e.sliced, relevant); }
  }

  lemma ConcernsUnlessIgnored(change: Change, sliced: bool, relevant: set<Slice>)
    ensures Concerns(change, sliced, relevant) <==> !Ignored(change, sliced, relevant)
  {}

  // What the store tells its panels of the loop's turns: a full answer names the slices it changed, a receipt
  // none; a recovery is told as an error, with what it changed; and everything else is about loading.
  lemma TurnsAreTold(s: Store, e: Event, now: int)
    requires OfFlight(e)
    ensures Notified(s, e, now) ==
            if AnswerArrives(s, e) then
              Change(SnapshotRead, if e.reply.snapshot.notModified && s.shown.snapshot.Some? then {}
                                   else ChangedSlices(s.shown.snapshot, Some(e.reply.snapshot)))
            else if RefusalArrives(s, e) then
              Change(ErrorRead, if e.IndependentReply?
                                then ChangedSlices(s.shown.snapshot, Step(s, e, now).shown.snapshot) else {})
            else Change(LoadingChanged, {})
  {
    hide Turned, ChangedSlices, Recovery, Accept, Receipt;
  }

  // Of the others: a lease that ends is told with the payloads that are gone, if any, a snapshot out of the cache
  // as such, and a move to a repository without one as a change of everything.
  lemma OthersAreTold(s: Store, e: Event, now: int)
    requires !OfFlight(e)
    ensures var change, lost := Notified(s, e, now), Lost(s.shown.snapshot, Step(s, e, now).shown.snapshot);
      if OfLease(e) then change == (if lost == {} then Change(LoadingChanged, {}) else Change(SnapshotRead, lost))
      else if FillsFromCache(s, e) || (e.Move? && e.cached.Some?) then change.kind == CacheRead
      else if e.Move? then change.kind == SnapshotRead && forall x: Slice :: x in change.slices
      else change == Change(LoadingChanged, {})
  {
    hide LeaseEffect, RequestEffect, WithoutEphemeral;
    if e.Move? && e.cached.None? {
      forall x: Slice ensures x in Notified(s, e, now).slices {
        assert || x == Repository || x == Lifecycle || x == Configuration || x == Capabilities
               || x == Integrations || x == Diagnostics || x == Sgos || x == Comprehension;
      }
    }
  }
}
