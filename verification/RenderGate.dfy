// RetainedPanelRenderGate of apps/vscode/src/single-flight.ts in front of the workspace store: a
// retained panel renders only changes that concern it, and only while it is visible.
module RenderGates {
  import opened Snapshots
  import opened WorkspaceStores
  import opened StorePayloads
  import opened StoreReceipts
  import opened StoreRuns
  import opened Wrappers

  // `visible` is what the host says, `due` that it has not announced it yet. History: the snapshot the
  // panel shows, the store's own, and the number of renders.
  datatype Panel = Panel(pending: bool, disposed: bool, visible: bool, due: bool,
                         rendered: Option<Snapshot>, current: Option<Snapshot>, renders: nat)

  datatype PanelEvent =
    | Changed(change: Change, sliced: bool, next: Option<Snapshot>)
    | Reveal
    | Hide
    | Announce
    | Rendered
    | Dispose

  function Render(p: Panel): Panel {
    p.(rendered := p.current, renders := p.renders + 1)
  }

  // A change that provably leaves this panel's model alone.
  predicate Ignored(change: Change, sliced: bool, relevant: set<Slice>) {
    || change.kind.LoadingChanged?
    || (change.kind.SnapshotRead? && sliced && relevant != {} && change.slices !! relevant)
  }

  function Notify(p: Panel, change: Change, sliced: bool, relevant: set<Slice>): Panel {
    if p.disposed || Ignored(change, sliced, relevant) then p
    else if !p.visible then p.(pending := true)
    else Render(p)
  }

  function PanelStep(p: Panel, e: PanelEvent, relevant: set<Slice>): Panel {
    match e
    case Changed(change, sliced, next) => Notify(p.(current := next), change, sliced, relevant)
    case Reveal => p.(visible := true, due := p.due || !p.visible)
    case Hide => p.(visible := false, due := false)
    case Announce =>
      if p.disposed || !p.visible || !p.pending then p.(due := false) else Render(p.(pending := false, due := false))
    case Rendered => if p.disposed then p else p.(pending := false, rendered := p.current)
    case Dispose => p.(disposed := true, pending := false)
  }

  function DigestIn(s: Option<Snapshot>, x: Slice): Option<nat> {
    if s.Some? then Digest(Digests(s.value), x) else None
  }

  // Each relevant slice the store has a digest for is shown as it is.
  ghost predicate Fresh(rendered: Option<Snapshot>, current: Option<Snapshot>, relevant: set<Slice>) {
    forall x | x in relevant && DigestIn(current, x).Some? :: DigestIn(rendered, x) == DigestIn(current, x)
  }

  // A notification that names every slice whose digest moved.
  ghost predicate Faithful(before: Option<Snapshot>, after: Option<Snapshot>, change: Change) {
    && (change.kind.LoadingChanged? ==> after == before)
    && (change.kind.SnapshotRead? ==>
          forall x :: DigestIn(after, x).Some? && DigestIn(before, x) != DigestIn(after, x) ==> x in change.slices)
  }

  ghost predicate PanelOk(p: Panel, relevant: set<Slice>) {
    !p.disposed ==>
      && (!p.pending ==> Fresh(p.rendered, p.current, relevant))
      && (p.visible && p.pending ==> p.due)
  }

  // Skipping renders is not visible: a panel with nothing pending shows what rendering on every change
  // would show, and a visible panel with something pending is about to be told.
  lemma PanelStaysFresh(p: Panel, e: PanelEvent, relevant: set<Slice>)
    requires PanelOk(p, relevant)
    requires e.Changed? ==> Faithful(p.current, e.next, e.change)
    ensures PanelOk(PanelStep(p, e, relevant), relevant)
  {}

  function PanelRun(p: Panel, events: seq<PanelEvent>, relevant: set<Slice>): Panel {
    if events == [] then p
    else PanelStep(PanelRun(p, events[..|events| - 1], relevant), events[|events| - 1], relevant)
  }

  // A change the panel was told of and has not rendered by itself since.
  predicate Missed(events: seq<PanelEvent>, i: nat, relevant: set<Slice>)
    requires i < |events|
  {
    && events[i].Changed? && !Ignored(events[i].change, events[i].sliced, relevant)
    && forall k | i < k < |events| :: !events[k].Rendered?
  }

  lemma MissedSoFar(events: seq<PanelEvent>, e: PanelEvent, relevant: set<Slice>)
    ensures (exists i: nat :: i < |events + [e]| && Missed(events + [e], i, relevant)) <==>
      || (e.Changed? && !Ignored(e.change, e.sliced, relevant))
      || (!e.Rendered? && exists i: nat :: i < |events| && Missed(events, i, relevant))
  {
    hide Ignored;
    var all := events + [e];
    assert forall i | 0 <= i < |events| :: all[i] == events[i];
    if i: nat :| i < |all| && Missed(all, i, relevant) {
      if i < |events| { assert !all[|events|].Rendered? && Missed(events, i, relevant); }
    }
    if e.Changed? && !Ignored(e.change, e.sliced, relevant) { assert Missed(all, |events|, relevant); }
    if i: nat :| i < |events| && Missed(events, i, relevant) {
      if !e.Rendered? { assert Missed(all, i, relevant); }
    }
  }

  // Whatever happens while a panel is hidden renders nothing, and costs one render when it is revealed
  // exactly if some change that concerns it has not been rendered.
  lemma {:induction false} HiddenChangesCollapse(p: Panel, events: seq<PanelEvent>, relevant: set<Slice>)
    requires !p.visible && !p.disposed && forall i | 0 <= i < |events| :: !events[i].Reveal? && !events[i].Dispose?
    ensures var hidden := PanelRun(p, events, relevant);
            var shown := PanelStep(PanelStep(hidden, Reveal, relevant), Announce, relevant);
      && hidden.renders == p.renders && !hidden.visible && !hidden.disposed
      && ((forall i | 0 <= i < |events| :: !events[i].Rendered?) ==> hidden.rendered == p.rendered)
      && (hidden.pending <==>
            || (p.pending && forall i | 0 <= i < |events| :: !events[i].Rendered?)
            || exists i: nat :: i < |events| && Missed(events, i, relevant))
      && shown.renders == p.renders + (if hidden.pending then 1 else 0)
      && (hidden.pending ==> shown.rendered == shown.current == hidden.current)
  {
    hide Ignored, Missed;
    if events != [] {
      var front, last := events[..|events| - 1], events[|events| - 1];
      HiddenChangesCollapse(p, front, relevant);
      MissedSoFar(front, last, relevant);
      assert events == front + [last];
    }
  }

  // ---- The store's own notifications ----

  // What the store tells its listeners in one event; LoadingChanged when it shows nothing new.
  function Notified(s: Store, e: Event, now: int): Change {
    if OfFlight(e) then
      if e.flight in s.flights && TurnOf(s, s.flights[e.flight], e, now).Publish?
      then TurnOf(s, s.flights[e.flight], e, now).change else Change(LoadingChanged, {})
    else if OfLease(e) then
      var lost := Lost(s.shown.snapshot, LeaseEffect(s, e).shown.snapshot);
      if lost == {} then Change(LoadingChanged, {}) else Change(SnapshotRead, lost)
    else match e
      case Prime(cached) =>
        if s.shown.snapshot.Some? || cached.None? then Change(LoadingChanged, {})
        else Change(CacheRead, Included(WithoutEphemeral(cached.value, {})))
      case Move(cached) =>
        if cached.Some? then Change(CacheRead, {})
        else Change(SnapshotRead, {Repository, Lifecycle, Configuration, Capabilities, Integrations, Diagnostics,
                                   Sgos, Comprehension})
      case _ => Change(LoadingChanged, {})
  }

  // A full answer can be told from what is shown: slice by slice, or by its aggregate revision.
  predicate TellsApart(before: Option<Snapshot>, after: Snapshot) {
    || before.None? || Exact(before.value) || !Exact(after)
    || Subject(before.value).None? || Subject(before.value) != Subject(after)
  }

  // The notification of a full answer names every slice whose digest moved exactly then. Otherwise equal
  // aggregate revisions say that nothing moved, and the panel misses digests that were not there before.
  lemma FullChangesAreFaithful(before: Option<Snapshot>, after: Snapshot)
    ensures Faithful(before, Some(after), Change(SnapshotRead, ChangedSlices(before, Some(after)))) <==>
            TellsApart(before, after)
  {
    if !TellsApart(before, after) {
      var x :| x in Digests(after);
      assert DigestIn(Some(after), x).Some? && DigestIn(before, x) == None;
    }
  }

  // A receipt is announced as changing nothing. That is so exactly if it repeats the digests shown.
  lemma ReceiptsAreFaithful(shown: Shown, receipt: Snapshot)
    requires shown.snapshot.Some?
    ensures Faithful(shown.snapshot, Receipt(shown, receipt).snapshot, Change(SnapshotRead, {})) <==>
            receipt.revision.None? || Repeats(receipt, shown.snapshot.value)
  {
    var after := Receipt(shown, receipt).snapshot;
    SkippedReceiptIsInvisible(shown.snapshot.value, receipt);
    if receipt.revision.Some? {
      assert Digests(after.value) == Digests(receipt);
      if Repeats(receipt, shown.snapshot.value) {
        forall x | DigestIn(after, x).Some? ensures DigestIn(shown.snapshot, x) == DigestIn(after, x) {
          assert x in Digests(receipt);
        }
      }
      if Faithful(shown.snapshot, after, Change(SnapshotRead, {})) {
        forall x | x in Digests(receipt) ensures Digest(Digests(shown.snapshot.value), x) == Some(Digests(receipt)[x]) {
          assert DigestIn(after, x).Some?;
        }
      }
    } else {
      assert Digests(after.value) == Digests(shown.snapshot.value);
    }
  }

  lemma CurrentReads(s: Store, id: nat, snapshot: Snapshot, now: int)
    requires Publishes(s, SnapshotReply(id, Answer(snapshot)), now)
    ensures id in s.flights && StillReads(s, id, s.flights[id].readAt)
  {}

  // The receipt of an honest engine is announced truly if and only if no payload with a digest was taken out
  // of what is shown since its attempt began; otherwise it brings a digest back that nobody is told of.
  lemma HonestReceiptsAreFaithful(run: seq<Timed>, id: nat, receipt: Snapshot, now: int)
    requires Publishes(Run(run), SnapshotReply(id, Answer(receipt)), now) && Run(run).shown.snapshot.Some?
    requires Honest(run, id, receipt)
    ensures var shown := Run(run).shown;
      Faithful(shown.snapshot, Receipt(shown, receipt).snapshot, Change(SnapshotRead, {})) <==>
        receipt.revision.None? || !DigestLost(run, Run(run).flights[id].readAt)
  {
    hide Run, Publishes, Faithful, Repeats, DigestLost, Honest, StillReads;
    CurrentReads(Run(run), id, receipt, now);
    ReceiptsAreFaithful(Run(run).shown, receipt);
    if receipt.revision.Some? { HonestReceiptsRepeat(run, id, receipt); }
  }

  // The answer the store publishes, if any, can be told from what is shown, or is a receipt that repeats it.
  ghost predicate Told(s: Store, e: Event, now: int) {
    match e
    case SnapshotReply(_, Answer(snapshot)) =>
      Publishes(s, e, now) ==>
        if snapshot.notModified && s.shown.snapshot.Some?
        then snapshot.revision.None? || Repeats(snapshot, s.shown.snapshot.value)
        else TellsApart(s.shown.snapshot, snapshot)
    case _ => true
  }

  lemma FlightChangesAreFaithful(s: Store, e: Event, now: int)
    requires OfFlight(e)
    ensures Faithful(s.shown.snapshot, FlightEffect(s, e, now).shown.snapshot, Notified(s, e, now)) <==> Told(s, e, now)
  {
    hide ChangedSlices, Faithful, TellsApart, Repeats;
    NothingIsFaithful(s.shown.snapshot);
    if e.SnapshotReply? && e.reply.Answer? {
      if e.reply.snapshot.notModified && s.shown.snapshot.Some? {
        ReceiptsAreFaithful(s.shown, e.reply.snapshot);
      } else {
        FullChangesAreFaithful(s.shown.snapshot, e.reply.snapshot);
      }
    }
    if e.flight in s.flights && s.flights[e.flight].phase.Independent? && e.IndependentReply? {
      ErrorsAreFaithful(s, e, now);
    }
  }

  lemma NothingIsFaithful(snapshot: Option<Snapshot>)
    ensures Faithful(snapshot, snapshot, Change(LoadingChanged, {}))
    ensures Faithful(snapshot, snapshot, Change(ErrorRead, {}))
  {}

  lemma ErrorsAreFaithful(s: Store, e: Event, now: int)
    requires e.IndependentReply? && e.flight in s.flights
    ensures Faithful(s.shown.snapshot, FlightEffect(s, e, now).shown.snapshot, Notified(s, e, now))
  {}

  lemma TrimmingIsFaithful(before: Option<Snapshot>, after: Option<Snapshot>)
    requires Trims(before, after)
    ensures Lost(before, after) == {} ==> Faithful(before, after, Change(LoadingChanged, {}))
    ensures Faithful(before, after, Change(SnapshotRead, Lost(before, after)))
  {
    hide Digests, Digest;
    if Lost(before, after) == {} { NothingLostIsTheSame(before, after); }
  }

  lemma RequestChangesAreFaithful(s: Store, e: Event, now: int)
    requires !OfFlight(e) && !OfLease(e)
    ensures Faithful(s.shown.snapshot, RequestEffect(s, e, now).shown.snapshot, Notified(s, e, now))
  {}

  // Every notification of the store names what moved, except exactly for the answers that cannot be told
  // from what is shown.
  lemma StoreChangesAreFaithful(s: Store, e: Event, now: int)
    ensures Faithful(s.shown.snapshot, Step(s, e, now).shown.snapshot, Notified(s, e, now)) <==> Told(s, e, now)
  {
    hide FlightEffect, LeaseEffect, RequestEffect, Faithful, Publishes, TurnOf;
    if OfFlight(e) {
      FlightChangesAreFaithful(s, e, now);
    } else if OfLease(e) {
      LeaseTrims(s, e);
      TrimmingIsFaithful(s.shown.snapshot, LeaseEffect(s, e).shown.snapshot);
    } else {
      RequestChangesAreFaithful(s, e, now);
    }
  }

  // ---- A panel in front of the store ----

  datatype ScreenEvent = OnStore(event: Timed) | OnPanel(panelEvent: PanelEvent)
  datatype Screen = Screen(store: Store, panel: Panel)

  // A disposed store has no listeners any more.
  function ScreenStep(c: Screen, e: ScreenEvent, relevant: set<Slice>): Screen {
    match e
    case OnStore(t) =>
      var store := Step(c.store, t.event, t.now);
      var change := Changed(Notified(c.store, t.event, t.now), true, store.shown.snapshot);
      Screen(store, if c.store.disposed then c.panel else PanelStep(c.panel, change, relevant))
    case OnPanel(p) => if p.Changed? then c else Screen(c.store, PanelStep(c.panel, p, relevant))
  }

  const FRESH_SCREEN := Screen(EMPTY_STORE, Panel(false, false, true, false, None, None, 0))

  function ScreenRun(events: seq<ScreenEvent>, relevant: set<Slice>): Screen {
    if events == [] then FRESH_SCREEN
    else ScreenStep(ScreenRun(events[..|events| - 1], relevant), events[|events| - 1], relevant)
  }

  function StoreEvents(events: seq<ScreenEvent>): seq<Timed> {
    if events == [] then []
    else
      StoreEvents(events[..|events| - 1]) +
      (if events[|events| - 1].OnStore? then [events[|events| - 1].event] else [])
  }

  lemma {:induction false} StoreIsARun(events: seq<ScreenEvent>, relevant: set<Slice>)
    ensures ScreenRun(events, relevant).store == Run(StoreEvents(events))
  {
    hide Step, PanelStep, Notified;
    if events != [] {
      var front, last := events[..|events| - 1], events[|events| - 1];
      StoreIsARun(front, relevant);
      if last.OnStore? {
        assert (StoreEvents(front) + [last.event])[..|StoreEvents(front)|] == StoreEvents(front);
      } else {
        assert StoreEvents(front) + [] == StoreEvents(front);
      }
    }
  }

  // A published receipt is honest, and a published full answer can be told from what is shown.
  ghost predicate HonestAnswer(run: seq<Timed>, e: Event, now: int) {
    match e
    case SnapshotReply(id, Answer(snapshot)) =>
      Publishes(Run(run), e, now) ==>
        if snapshot.notModified && Run(run).shown.snapshot.Some? then Honest(run, id, snapshot)
        else TellsApart(Run(run).shown.snapshot, snapshot)
    case _ => true
  }

  // No payload with a digest was taken out of what is shown while the read ran that this receipt ends.
  ghost predicate Undisturbed(run: seq<Timed>, e: Event, now: int) {
    match e
    case SnapshotReply(id, Answer(snapshot)) =>
      Publishes(Run(run), e, now) && snapshot.notModified && Run(run).shown.snapshot.Some? && snapshot.revision.Some?
      ==> !DigestLost(run, Run(run).flights[id].readAt)
    case _ => true
  }

  // The notification of an honest answer names what moved exactly if the read was not disturbed.
  lemma HonestAnswersAreTold(run: seq<Timed>, e: Event, now: int)
    requires HonestAnswer(run, e, now)
    ensures Told(Run(run), e, now) <==> Undisturbed(run, e, now)
  {
    hide Run, Publishes, TellsApart, Repeats, DigestLost, Honest, StillReads;
    if e.SnapshotReply? && e.reply.Answer? && Publishes(Run(run), e, now) {
      CurrentReads(Run(run), e.flight, e.reply.snapshot, now);
      if e.reply.snapshot.notModified && Run(run).shown.snapshot.Some? && e.reply.snapshot.revision.Some? {
        HonestReceiptsRepeat(run, e.flight, e.reply.snapshot);
      }
    }
  }

  ghost predicate HonestAndUndisturbed(events: seq<ScreenEvent>) {
    forall k | 0 <= k < |events| && events[k].OnStore? ::
      var t := events[k].event;
      HonestAnswer(StoreEvents(events[..k]), t.event, t.now) && Undisturbed(StoreEvents(events[..k]), t.event, t.now)
  }

  lemma HonestBefore(events: seq<ScreenEvent>)
    requires events != [] && HonestAndUndisturbed(events)
    ensures HonestAndUndisturbed(events[..|events| - 1])
  {
    hide HonestAnswer, Undisturbed, StoreEvents;
    var front := events[..|events| - 1];
    assert forall k | 0 <= k < |front| :: front[..k] == events[..k] && front[k] == events[k];
  }

  // Over every run of the store and of what the host does to the panel, until the store is disposed:
  // while nothing is pending, the panel shows the store's own digest of each slice it renders.
  lemma {:induction false} PanelShowsTheStore(events: seq<ScreenEvent>, relevant: set<Slice>)
    requires HonestAndUndisturbed(events)
    ensures var c := ScreenRun(events, relevant);
      (!c.store.disposed ==> c.panel.current == c.store.shown.snapshot) && PanelOk(c.panel, relevant)
  {
    hide Run, Step, PanelOk, Faithful, Notified, Told, HonestAnswer, Undisturbed, StoreEvents;
    if events == [] {
      FreshIsOk(relevant);
    } else {
      var front, e := events[..|events| - 1], events[|events| - 1];
      var c := ScreenRun(front, relevant);
      HonestBefore(events);
      PanelShowsTheStore(front, relevant);
      match e
      case OnStore(t) =>
        StoreIsARun(front, relevant);
        HonestAnswersAreTold(StoreEvents(front), t.event, t.now);
        DisposedForGood(c.store, t.event, t.now);
        StoreChangesAreFaithful(c.store, t.event, t.now);
        var change, after := Notified(c.store, t.event, t.now), Step(c.store, t.event, t.now);
        if !c.store.disposed { PanelStaysFresh(c.panel, Changed(change, true, after.shown.snapshot), relevant); }
      case OnPanel(p) => if !p.Changed? { PanelStaysFresh(c.panel, p, relevant); }
    }
  }

  lemma DisposedForGood(s: Store, e: Event, now: int)
    ensures s.disposed ==> Step(s, e, now).disposed
  {
    hide FlightEffect, LeaseEffect, RequestEffect;
    if OfFlight(e) {
      FlightOnlyAdvances(s, e, now);
    } else if OfLease(e) {
      LeaseOnlyReleases(s, e);
    } else {
      RequestKeepsDisposed(s, e, now);
    }
  }

  lemma FreshIsOk(relevant: set<Slice>)
    ensures PanelOk(FRESH_SCREEN.panel, relevant)
  {}

  // ---- A digest that returns unannounced ----

  const RECEIPT := HEAVY.(payload := map[], notModified := true)

  lemma ReceiptIsPublished(s: Store, id: nat)
    requires id in s.flights && s.flights[id].phase.Reading? && s.flights[id].generation == s.generation
    requires s.shown.snapshot == Some(Without(HEAVY, {Comprehension}))
    ensures var e := SnapshotReply(id, Answer(RECEIPT));
      && Publishes(s, e, 0) && Notified(s, e, 0) == Change(SnapshotRead, {})
      && DigestIn(s.shown.snapshot, Comprehension) == None
      && DigestIn(Step(s, e, 0).shown.snapshot, Comprehension) == Some(1)
  {
    hide Keep;
  }

  // A lease ends while a read runs whose receipt certifies what was shown before: the digest returns without
  // its payload, and the notification says that nothing changed.
  lemma ReturningDigestIsUnannounced()
    ensures var run := At0(LEASED); var e := SnapshotReply(4, Answer(RECEIPT));
      && Publishes(Run(run), e, 0) && HonestAnswer(run, e, 0) && !Undisturbed(run, e, 0)
      && Notified(Run(run), e, 0) == Change(SnapshotRead, {})
      && DigestIn(Run(run).shown.snapshot, Comprehension) == None
      && DigestIn(Step(Run(run), e, 0).shown.snapshot, Comprehension) == Some(1)
  {
    hide Run, Step, Publishes, Notified, Without;
    LeaseEndsDuringTheRead();
    var run, e := At0(LEASED), SnapshotReply(4, Answer(RECEIPT));
    ReceiptIsPublished(Run(run), 4);
    assert run[..5] == At0(LEASED[..5]);
    assert Digests(RECEIPT) == Digests(HEAVY);
    HonestAnswersAreTold(run, e, 0);
    assert !Repeats(RECEIPT, Run(run).shown.snapshot.value) by { assert Comprehension in Digests(RECEIPT); }
  }

  // ---- The gate itself ----

  class RetainedPanelRenderGate {
    const relevantSlices: set<Slice>
    var pending: bool
    var disposed: bool
    var visible: bool
    var due: bool
    var renders: nat
    ghost var rendered: Option<Snapshot>
    ghost var current: Option<Snapshot>

    ghost function View(): Panel
      reads this
    {
      Panel(pending, disposed, visible, due, rendered, current, renders)
    }

    constructor (relevant: set<Slice>)
      ensures View() == FRESH_SCREEN.panel && relevantSlices == relevant
    {
      relevantSlices := relevant;
      pending, disposed, visible, due, renders := false, false, true, false, 0;
      rendered, current := None, None;
    }

    method RenderLatest()
      modifies this`rendered, this`renders
      ensures View() == Render(old(View()))
    {
      rendered, renders := current, renders + 1;
    }

    method OnChanged(change: Change, sliced: bool)
      modifies this
      ensures View() == Notify(old(View()), change, sliced, relevantSlices)
    {
      if disposed || change.kind.LoadingChanged? {
        return;
      }
      if change.kind.SnapshotRead? && sliced && relevantSlices != {} && change.slices !! relevantSlices {
        return;
      }
      if !visible {
        pending := true;
        return;
      }
      RenderLatest();
    }

    method VisibilityChanged()
      modifies this
      ensures View() == PanelStep(old(View()), Announce, relevantSlices)
    {
      due := false;
      if disposed || !visible || !pending {
        return;
      }
      pending := false;
      RenderLatest();
    }

    method UserRendered()
      modifies this
      ensures View() == PanelStep(old(View()), Rendered, relevantSlices)
    {
      if !disposed {
        pending := false;
        rendered := current;
      }
    }

    method Close()
      modifies this
      ensures View() == PanelStep(old(View()), Dispose, relevantSlices)
    {
      disposed, pending := true, false;
    }
  }
}
