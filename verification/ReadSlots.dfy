// The read pool and the hub together: a job of the hub that is queued has a ticket in the pool, and one
// that runs holds one of its slots, whichever client asked for it. A slot is freed a turn after the run of
// its ticket settles.
module ReadSlots {
  import H = ReadHubs
  import P = ReadPools
  import opened Wrappers

  // `tickets` maps a job to the ticket it took last; `ending` are the tickets whose run has settled and
  // which still hold their slots.
  datatype Slots = Slots(hub: H.Hub, pool: P.Pool, tickets: map<nat, nat>, ending: set<nat>)

  const NO_SLOTS := Slots(H.EMPTY_HUB, P.EMPTY_POOL, map[], {})

  // OnHub is any event of the hub but the pool running a ticket (Dispatch) and a read ending (Return);
  // `priority` and `at` are those of the ticket that is queued by it, if any. Release is the turn in which
  // the slot of a settled run is freed.
  datatype Event =
    | OnHub(event: H.Event, priority: P.Priority, at: int)
    | RaiseJob(job: nat, priority: P.Priority)
    | Dispatch(chosenAt: int, startedAt: int)
    | Return(job: nat, value: Option<nat>, now: int)
    | Release(ticket: nat)

  predicate Reading(job: H.Job) {
    job.started && !job.finished
  }

  predicate InQueue(p: P.Pool, t: nat) {
    P.IndexOf(p.queue, t) >= 0
  }

  // The job that takes a place in the pool: a new one, or one whose wait for mutations is over.
  function Queuing(h: H.Hub, e: H.Event): Option<nat> {
    var g := H.Step(h, e);
    match e
    case Request(_, _, _, _, _) =>
      if h.step !in h.jobs && h.step in g.jobs && g.jobs[h.step].queued then Some(h.step) else None
    case MutationsCleared(j) =>
      if j in h.jobs && !h.jobs[j].queued && j in g.jobs && g.jobs[j].queued then Some(j) else None
    case _ => None
  }

  // Jobs that everyone has left before they started.
  function Leaving(h: H.Hub, e: H.Event): set<nat> {
    var g := H.Step(h, e);
    set j | j in h.jobs && h.jobs[j].queued && j in g.jobs && !g.jobs[j].queued
  }

  // Leaving jobs cancel their tickets one after the other.
  ghost function Cancels(gone: set<nat>, tickets: map<nat, nat>): seq<P.Event>
    requires gone <= tickets.Keys
  {
    if gone == {} then []
    else
      var j :| j in gone;
      Cancels(gone - {j}, tickets) + [P.Cancel(tickets[j])]
  }

  ghost function Owner(s: Slots, t: nat): nat
    requires exists j :: j in s.tickets && s.tickets[j] == t
  {
    var j :| j in s.tickets && s.tickets[j] == t;
    j
  }

  ghost predicate Owned(s: Slots, t: nat) {
    exists j :: j in s.tickets && s.tickets[j] == t
  }

  // What an event does to the pool.
  ghost function PoolEvents(s: Slots, e: Event): seq<P.Event> {
    match e
    case OnHub(h, priority, at) =>
      if h.Slot? || h.Complete? then []
      else (if Leaving(s.hub, h) <= s.tickets.Keys then Cancels(Leaving(s.hub, h), s.tickets) else [])
           + (if Queuing(s.hub, h).Some? then [P.Enqueue(priority, at)] else [])
    case RaiseJob(j, priority) => if j in s.tickets then [P.Raise(s.tickets[j], priority)] else []
    case Dispatch(chosenAt, startedAt) => [P.Dispatch(chosenAt, startedAt)]
    case Return(_, _, _) => []
    case Release(t) => if t in s.ending then [P.Finish(t)] else []
  }

  // A run settles when its read ends, or at once when its job meets a mutation.
  ghost function Ending(s: Slots, e: Event): set<nat> {
    match e
    case Dispatch(chosenAt, _) =>
      var choice := P.Pick(s.pool, chosenAt);
      if choice < 0 || !Owned(s, s.pool.queue[choice].id) || Launches(s, s.pool.queue[choice].id) then s.ending
      else s.ending + {s.pool.queue[choice].id}
    case Return(j, _, _) =>
      if j in s.hub.jobs && Reading(s.hub.jobs[j]) && j in s.tickets then s.ending + {s.tickets[j]} else s.ending
    case Release(t) => s.ending - {t}
    case _ => s.ending
  }

  // The read begins, unless its job meets a mutation.
  ghost predicate Launches(s: Slots, t: nat)
    requires Owned(s, t)
  {
    var g := H.Step(s.hub, H.Slot(Owner(s, t)));
    Owner(s, t) in g.jobs && g.jobs[Owner(s, t)].started
  }

  ghost function HubEvent(s: Slots, e: Event): Option<H.Event> {
    match e
    case OnHub(h, _, _) => if h.Slot? || h.Complete? then None else Some(h)
    case RaiseJob(_, _) => None
    case Release(_) => None
    case Dispatch(chosenAt, _) =>
      var choice := P.Pick(s.pool, chosenAt);
      if choice >= 0 && Owned(s, s.pool.queue[choice].id) then Some(H.Slot(Owner(s, s.pool.queue[choice].id))) else None
    case Return(j, value, now) =>
      if j in s.hub.jobs && Reading(s.hub.jobs[j]) && j in s.tickets then Some(H.Complete(j, value, now)) else None
  }

  ghost function Step(s: Slots, e: Event): Slots {
    Slots(if HubEvent(s, e).Some? then H.Step(s.hub, HubEvent(s, e).value) else s.hub,
          P.Run(s.pool, PoolEvents(s, e)),
          if e.OnHub? && HubEvent(s, e).Some? && Queuing(s.hub, e.event).Some?
          then s.tickets[Queuing(s.hub, e.event).value := s.pool.nextId] else s.tickets,
          Ending(s, e))
  }

  ghost function Run(events: seq<Event>): Slots {
    if events == [] then NO_SLOTS else Step(Run(events[..|events| - 1]), events[|events| - 1])
  }

  // ---- What a hub event does to the flags of a job ----

  ghost predicate FlagsMove(h: H.Hub, e: H.Event, j: nat, before: H.Job, after: H.Job) {
    && (Reading(after) != Reading(before) ==>
          (e == H.Slot(j) && Reading(after) && before.queued) || (e.Complete? && e.job == j && before.started))
    && (after.queued && !before.queued ==> e == H.MutationsCleared(j))
    && (before.queued && !after.queued ==> e == H.Slot(j) || e.Rebind? || e.Dispose? || e.LeaveRead?)
  }

  lemma DepartMoves(h: H.Hub, e: H.Event, j: nat, leaving: set<nat>)
    requires j in h.jobs && (h.jobs[j].queued ==> !h.jobs[j].started)
    requires e.Rebind? || e.Dispose? || e.LeaveRead? || leaving == {}
    ensures j in H.DepartAll(h.jobs, leaving) && FlagsMove(h, e, j, h.jobs[j], H.DepartAll(h.jobs, leaving)[j])
    ensures FlagsMove(h, e, j, h.jobs[j], h.jobs[j])
  {}

  lemma JobIsOk(h: H.Hub, j: nat, n: nat)
    requires H.Inv(h, n) && j in h.jobs
    ensures H.JobOk(h.jobs[j]) && j < n
  {}

  lemma FencesMove(h: H.Hub, e: H.Event, j: nat)
    requires H.Inv(h, h.step) && H.Fencing(e) && j in h.jobs
    ensures j in H.Step(h, e).jobs && FlagsMove(h, e, j, h.jobs[j], H.Step(h, e).jobs[j])
  {
    hide H.Effect, FlagsMove, H.DepartAll, H.SettleAll, H.PendingOf, H.FenceOf, H.Inv;
    JobIsOk(h, j, h.step);
    H.FencingEffect(h, e);
    DepartMoves(h, e, j, H.Leavers(h, e));
  }

  lemma LeaveMoves(h: H.Hub, e: H.Event, j: nat)
    requires H.Inv(h, h.step) && e.LeaveRead? && j in h.jobs
    ensures j in H.Step(h, e).jobs && FlagsMove(h, e, j, h.jobs[j], H.Step(h, e).jobs[j])
  {
    hide H.Leave, FlagsMove, H.DepartAll, H.Inv;
    JobIsOk(h, j, h.step);
    DepartMoves(h, e, j, {e.subscriber});
    if e.subscriber in h.subscribers && h.subscribers[e.subscriber].owner in h.clients {
      H.LeaveJobs(h, h.subscribers[e.subscriber].owner, {e.subscriber});
    }
  }

  lemma RequestMoves(h: H.Hub, e: H.Event, j: nat)
    requires H.Ready(h) && e.Request? && j in h.jobs
    ensures j in H.Step(h, e).jobs && FlagsMove(h, e, j, h.jobs[j], H.Step(h, e).jobs[j])
  {}

  lemma CompleteMoves(h: H.Hub, e: H.Event, j: nat)
    requires e.Complete? && j in h.jobs
    ensures j in H.Step(h, e).jobs && FlagsMove(h, e, j, h.jobs[j], H.Step(h, e).jobs[j])
  {
    hide H.FinishJob;
    H.FinishJobs(h, e.job, e.value, e.now);
  }

  lemma FlagsStay(h: H.Hub, j: nat)
    requires j in h.jobs
    ensures FlagsMove(h, H.MutationsCleared(j), j, h.jobs[j], H.Enqueued(h.jobs[j]))
    ensures FlagsMove(h, H.Slot(j), j, h.jobs[j], H.Started(h.jobs[j], H.Mutating(h.operations, h.jobs[j].repository)))
    ensures forall e :: FlagsMove(h, e, j, h.jobs[j], h.jobs[j])
  {
    hide H.Mutating;
  }

  lemma PoolMoves(h: H.Hub, e: H.Event, j: nat)
    requires (e.NewClient? || e.MutationsCleared? || e.Slot? || e.Idle?) && j in h.jobs
    ensures j in H.Step(h, e).jobs && FlagsMove(h, e, j, h.jobs[j], H.Step(h, e).jobs[j])
  {
    hide H.BeginMutation, H.SettleMutation, H.UseRepository, H.CancelOwn, H.InvalidateReads, H.RequestRead, H.FinishJob,
         H.Leave, FlagsMove, H.Enqueued, H.Started, H.Mutating;
    FlagsStay(h, j);
  }

  lemma HubMoves(h: H.Hub, e: H.Event, j: nat)
    requires H.Inv(h, h.step) && j in h.jobs
    ensures j in H.Step(h, e).jobs && FlagsMove(h, e, j, h.jobs[j], H.Step(h, e).jobs[j])
  {
    hide H.Step, FlagsMove, H.Inv;
    H.InvIsReady(h);
    if H.Fencing(e) { FencesMove(h, e, j); }
    else if e.LeaveRead? { LeaveMoves(h, e, j); }
    else if e.Request? { RequestMoves(h, e, j); }
    else if e.Complete? { CompleteMoves(h, e, j); }
    else { PoolMoves(h, e, j); }
  }

  // A job is created by a request, under the next name, and does not run yet.
  lemma HubCreates(h: H.Hub, e: H.Event, j: nat)
    requires H.Inv(h, h.step) && j in H.Step(h, e).jobs && j !in h.jobs
    ensures e.Request? && j == h.step && !Reading(H.Step(h, e).jobs[j])
  {
    hide H.Inv;
    H.InvIsReady(h);
    if e.Request? {
      NewJobWaits(h, e, j);
    } else if H.Fencing(e) {
      hide H.Effect;
      H.FenceCreatesNothing(h, e);
    } else {
      hide H.Effect;
      H.OthersCreateNothing(h, e);
    }
  }

  lemma NewJobWaits(h: H.Hub, e: H.Event, j: nat)
    requires H.Ready(h) && e.Request? && j in H.Step(h, e).jobs && j !in h.jobs
    ensures j == h.step && !Reading(H.Step(h, e).jobs[j])
  {}

  lemma SlotTaken(h: H.Hub, j: nat)
    requires H.Inv(h, h.step) && j in h.jobs && h.jobs[j].queued
    ensures var g := H.Step(h, H.Slot(j));
      && j in g.jobs && !g.jobs[j].queued && (g.jobs[j].started <==> Reading(g.jobs[j]))
      && (g.jobs[j].started <==> h.jobs[j].subscribers != {} && !h.jobs[j].finished
                                 && !H.Mutating(h.operations, h.jobs[j].repository))
  {
    hide H.Inv, H.Mutating;
    JobIsOk(h, j, h.step);
  }

  lemma ReadEnded(h: H.Hub, j: nat, value: Option<nat>, now: int)
    requires j in h.jobs && Reading(h.jobs[j])
    ensures var g := H.Step(h, H.Complete(j, value, now)); j in g.jobs && g.jobs[j].finished
  {
    hide H.FinishJob;
    H.FinishJobs(h, j, value, now);
  }

  // ---- What a pool event does to a ticket ----

  lemma EnqueueIn(p: P.Pool, priority: P.Priority, at: int, t: nat)
    requires P.WellQueued(p)
    ensures var q := P.Step(p, P.Enqueue(priority, at));
      && (InQueue(q, t) <==> InQueue(p, t) || t == p.nextId)
      && q.running == p.running && q.nextId == p.nextId + 1
  {
    var q := P.Step(p, P.Enqueue(priority, at));
    assert forall i | 0 <= i < |p.queue| :: q.queue[i] == p.queue[i];
    assert q.queue[|p.queue|].id == p.nextId;
  }

  lemma RemovedOut(queue: seq<P.Ticket>, i: nat, t: nat)
    requires i < |queue| && forall a, b | 0 <= a < b < |queue| :: queue[a].id != queue[b].id
    ensures P.IndexOf(P.Without(queue, i), t) >= 0 <==> P.IndexOf(queue, t) >= 0 && t != queue[i].id
  {
    var rest, k, l := P.Without(queue, i), P.IndexOf(queue, t), P.IndexOf(P.Without(queue, i), t);
    if k >= 0 && k != i { assert rest[if k < i then k else k - 1].id == t; }
    if l >= 0 { assert queue[if l < i then l else l + 1].id == t; }
  }

  lemma CancelOut(p: P.Pool, other: nat, t: nat)
    requires P.WellQueued(p)
    ensures var q := P.Step(p, P.Cancel(other));
      && (InQueue(q, t) <==> InQueue(p, t) && t != other)
      && q.running == p.running && q.nextId == p.nextId
  {
    hide P.Without, P.IndexFrom;
    var i := P.IndexOf(p.queue, other);
    if i >= 0 { RemovedOut(p.queue, i, t); }
  }

  lemma RaiseIn(p: P.Pool, other: nat, priority: P.Priority, t: nat)
    ensures var q := P.Step(p, P.Raise(other, priority));
      (InQueue(q, t) <==> InQueue(p, t)) && q.running == p.running && q.nextId == p.nextId
  {
    var q, k := P.Step(p, P.Raise(other, priority)), P.IndexOf(p.queue, t);
    if k >= 0 { assert q.queue[k].id == t; }
    if InQueue(q, t) { assert p.queue[P.IndexOf(q.queue, t)].id == t; }
  }

  lemma DispatchOut(p: P.Pool, chosenAt: int, startedAt: int, t: nat)
    requires P.WellQueued(p)
    ensures var q := P.Step(p, P.Dispatch(chosenAt, startedAt)); var choice := P.Pick(p, chosenAt);
      && q.nextId == p.nextId
      && if choice < 0 then q.queue == p.queue && q.running == p.running
         else var id := p.queue[choice].id;
              && InQueue(p, id) && id !in p.running
              && (InQueue(q, t) <==> InQueue(p, t) && t != id)
              && id in q.running && q.running == p.running[id := q.running[id]]
  {
    hide P.Without, P.IndexFrom;
    var choice := P.Pick(p, chosenAt);
    if choice >= 0 {
      RemovedOut(p.queue, choice, t);
      assert P.IndexOf(p.queue, p.queue[choice].id) >= 0;
    }
  }

  lemma {:induction false} CancelsOut(p: P.Pool, gone: set<nat>, tickets: map<nat, nat>, t: nat)
    requires P.WellQueued(p) && P.Counted(p) && gone <= tickets.Keys
    ensures var q := P.Run(p, Cancels(gone, tickets));
      && P.WellQueued(q) && P.Counted(q) && q.running == p.running && q.nextId == p.nextId
      && (InQueue(q, t) <==> InQueue(p, t) && forall j | j in gone :: tickets[j] != t)
  {
    hide P.Run, P.WellQueued, P.Counted, InQueue, P.Step;
    P.RunKeepsCounts(p, Cancels(gone, tickets));
    if gone == {} {
      P.RunNothing(p);
    } else {
      var j :| j in gone && Cancels(gone, tickets) == Cancels(gone - {j}, tickets) + [P.Cancel(tickets[j])];
      CancelsOut(p, gone - {j}, tickets, t);
      P.RunStep(p, Cancels(gone - {j}, tickets), P.Cancel(tickets[j]));
      CancelOut(P.Run(p, Cancels(gone - {j}, tickets)), tickets[j], t);
    }
  }

  // ---- The link between jobs and tickets ----

  ghost predicate TicketsOk(tickets: map<nat, nat>, jobs: set<nat>, nextId: nat) {
    && tickets.Keys <= jobs
    && (forall j | j in tickets :: tickets[j] < nextId)
    && (forall j, k | j in tickets && k in tickets && tickets[j] == tickets[k] :: j == k)
  }

  // The ticket's run has not settled.
  predicate Runs(p: P.Pool, ending: set<nat>, t: nat) {
    t in p.running && t !in ending
  }

  // The job is queued exactly while its ticket is, and reads exactly while its ticket's run lasts.
  ghost predicate InStep(job: H.Job, j: nat, p: P.Pool, tickets: map<nat, nat>, ending: set<nat>) {
    && (job.queued <==> j in tickets && InQueue(p, tickets[j]))
    && (Reading(job) <==> j in tickets && Runs(p, ending, tickets[j]))
  }

  ghost predicate Linked(s: Slots) {
    && P.WellQueued(s.pool) && P.Counted(s.pool) && H.Inv(s.hub, s.hub.step)
    && TicketsOk(s.tickets, s.hub.jobs.Keys, s.pool.nextId)
    && s.ending <= s.pool.running.Keys
    && (forall j | j in s.hub.jobs :: InStep(s.hub.jobs[j], j, s.pool, s.tickets, s.ending))
    && (forall t | InQueue(s.pool, t) || Runs(s.pool, s.ending, t) :: Owned(s, t))
  }

  lemma HubGoesOn(h: H.Hub, e: H.Event)
    requires H.Inv(h, h.step)
    ensures H.Inv(H.Step(h, e), H.Step(h, e).step)
  {
    hide H.Inv, H.Effect;
    H.EffectKeepsStep(h, e);
    H.StepKeepsInv(h, e);
  }

  lemma TicketTaken(tickets: map<nat, nat>, jobs: set<nat>, nextId: nat, j: nat, more: set<nat>)
    requires TicketsOk(tickets, jobs, nextId) && jobs <= more
    ensures j in more ==> TicketsOk(tickets[j := nextId], more, nextId + 1)
    ensures TicketsOk(tickets, more, nextId)
  {}

  lemma QueuedHasTicket(s: Slots, e: H.Event)
    requires Linked(s)
    ensures Leaving(s.hub, e) <= s.tickets.Keys
  {
    hide H.Step, H.Inv;
    forall j | j in Leaving(s.hub, e) ensures j in s.tickets {
      assert InStep(s.hub.jobs[j], j, s.pool, s.tickets, s.ending);
    }
  }

  lemma PoolAfterHub(s: Slots, e: H.Event, priority: P.Priority, at: int, t: nat)
    requires Linked(s) && !e.Slot? && !e.Complete?
    ensures var q := P.Run(s.pool, PoolEvents(s, OnHub(e, priority, at))); var queuing := Queuing(s.hub, e).Some?;
      && Leaving(s.hub, e) <= s.tickets.Keys
      && P.WellQueued(q) && P.Counted(q) && q.running == s.pool.running
      && q.nextId == s.pool.nextId + (if queuing then 1 else 0)
      && (InQueue(q, t) <==>
            || (InQueue(s.pool, t) && forall j | j in Leaving(s.hub, e) :: s.tickets[j] != t)
            || (queuing && t == s.pool.nextId))
  {
    QueuedHasTicket(s, e);
    hide H.Step, H.Inv, P.Run, P.WellQueued, P.Counted, InQueue, P.Step, Leaving, Queuing, Cancels, TicketsOk, InStep;
    var cancels := Cancels(Leaving(s.hub, e), s.tickets);
    CancelsOut(s.pool, Leaving(s.hub, e), s.tickets, t);
    P.RunKeepsCounts(s.pool, PoolEvents(s, OnHub(e, priority, at)));
    if Queuing(s.hub, e).Some? {
      P.RunStep(s.pool, cancels, P.Enqueue(priority, at));
      EnqueueIn(P.Run(s.pool, cancels), priority, at, t);
    } else {
      assert cancels + [] == cancels;
    }
  }

  // What the hub event does to one job, seen through its flags.
  lemma FlagsAfterHub(h: H.Hub, e: H.Event, j: nat)
    requires H.Inv(h, h.step) && !e.Slot? && !e.Complete? && j in H.Step(h, e).jobs
    ensures var job := H.Step(h, e).jobs[j];
      && (job.queued ==> !Reading(job))
      && if j in h.jobs
         then Reading(job) == Reading(h.jobs[j])
              && (job.queued <==> (h.jobs[j].queued && j !in Leaving(h, e)) || Queuing(h, e) == Some(j))
              && (Queuing(h, e) == Some(j) ==> !h.jobs[j].queued)
         else !Reading(job) && (job.queued <==> Queuing(h, e) == Some(j))
  {
    hide H.Inv, H.Effect;
    HubGoesOn(h, e);
    JobIsOk(H.Step(h, e), j, H.Step(h, e).step);
    if j in h.jobs { HubMoves(h, e, j); } else { HubCreates(h, e, j); }
  }

  lemma QueuingIsAJob(h: H.Hub, e: H.Event)
    requires H.Inv(h, h.step)
    ensures var g := H.Step(h, e);
      && h.jobs.Keys <= g.jobs.Keys
      && (Queuing(h, e).Some? ==>
            Queuing(h, e).value in g.jobs && g.jobs[Queuing(h, e).value].queued
            && (Queuing(h, e).value in h.jobs ==> !h.jobs[Queuing(h, e).value].queued))
  {
    hide H.Inv, H.Effect, FlagsMove;
    forall j | j in h.jobs ensures j in H.Step(h, e).jobs { HubMoves(h, e, j); }
  }

  lemma HubKeepsStep(s: Slots, e: H.Event, priority: P.Priority, at: int, j: nat)
    requires Linked(s) && !e.Slot? && !e.Complete? && j in H.Step(s.hub, e).jobs
    ensures var g := Step(s, OnHub(e, priority, at)); InStep(g.hub.jobs[j], j, g.pool, g.tickets, g.ending)
  {
    hide H.Step, H.Inv, P.Run, P.WellQueued, P.Counted, InQueue, Leaving, Queuing, Reading, PoolEvents;
    var g := Step(s, OnHub(e, priority, at));
    FlagsAfterHub(s.hub, e, j);
    QueuedHasTicket(s, e);
    if j in s.hub.jobs { assert InStep(s.hub.jobs[j], j, s.pool, s.tickets, s.ending); }
    RunningIsOld(s.pool);
    if j in g.tickets { PoolAfterHub(s, e, priority, at, g.tickets[j]); }
  }

  lemma RunningIsOld(p: P.Pool)
    requires P.WellQueued(p)
    ensures p.nextId !in p.running && !InQueue(p, p.nextId)
  {}

  lemma HubKeepsOwners(s: Slots, e: H.Event, priority: P.Priority, at: int, t: nat)
    requires Linked(s) && !e.Slot? && !e.Complete?
    requires var g := Step(s, OnHub(e, priority, at)); InQueue(g.pool, t) || Runs(g.pool, g.ending, t)
    ensures Owned(Step(s, OnHub(e, priority, at)), t)
  {
    hide H.Step, H.Inv, P.Run, P.WellQueued, P.Counted, InQueue, Leaving, Queuing, PoolEvents;
    var g := Step(s, OnHub(e, priority, at));
    PoolAfterHub(s, e, priority, at, t);
    QueuingIsAJob(s.hub, e);
    if t != s.pool.nextId || Queuing(s.hub, e).None? {
      assert Owned(s, t);
      var j :| j in s.tickets && s.tickets[j] == t;
      assert InStep(s.hub.jobs[j], j, s.pool, s.tickets, s.ending);
      FlagsAfterHub(s.hub, e, j);
      assert g.tickets[j] == t;
    } else {
      assert g.tickets[Queuing(s.hub, e).value] == t;
    }
  }

  lemma HubKeepsLink(s: Slots, e: H.Event, priority: P.Priority, at: int)
    requires Linked(s) && !e.Slot? && !e.Complete?
    ensures Linked(Step(s, OnHub(e, priority, at)))
  {
    hide H.Step, H.Inv, P.Run, P.WellQueued, P.Counted, InQueue, Leaving, Queuing, PoolEvents, InStep, Owned, TicketsOk;
    var g := Step(s, OnHub(e, priority, at));
    HubGoesOn(s.hub, e);
    PoolAfterHub(s, e, priority, at, 0);
    QueuingIsAJob(s.hub, e);
    TicketTaken(s.tickets, s.hub.jobs.Keys, s.pool.nextId,
                if Queuing(s.hub, e).Some? then Queuing(s.hub, e).value else 0, H.Step(s.hub, e).jobs.Keys);
    forall j | j in g.hub.jobs ensures InStep(g.hub.jobs[j], j, g.pool, g.tickets, g.ending) {
      HubKeepsStep(s, e, priority, at, j);
    }
    forall t | InQueue(g.pool, t) || Runs(g.pool, g.ending, t) ensures Owned(g, t) {
      HubKeepsOwners(s, e, priority, at, t);
    }
  }

  lemma OneEvent(p: P.Pool, e: P.Event)
    ensures P.Run(p, [e]) == P.Step(p, e)
  {
    hide P.Run, P.Step;
    assert [] + [e] == [e];
    P.RunNothing(p);
    P.RunStep(p, [], e);
  }

  lemma FinishOut(p: P.Pool, id: nat, t: nat)
    ensures var q := P.Step(p, P.Finish(id));
      && (InQueue(q, t) <==> InQueue(p, t)) && q.running == p.running - {id} && q.nextId == p.nextId
  {}

  // The dispatched ticket leaves the queue and holds a slot; its run lasts if its job launches.
  lemma PoolAfterDispatch(s: Slots, chosenAt: int, startedAt: int, t: nat)
    requires Linked(s) && P.Pick(s.pool, chosenAt) >= 0
    ensures var q := P.Run(s.pool, PoolEvents(s, Dispatch(chosenAt, startedAt)));
            var id := s.pool.queue[P.Pick(s.pool, chosenAt)].id;
      && InQueue(s.pool, id) && Owned(s, id) && id !in s.pool.running && id !in s.ending
      && q.nextId == s.pool.nextId
      && (InQueue(q, t) <==> InQueue(s.pool, t) && t != id)
      && (t in q.running <==> t in s.pool.running || t == id) && |q.running| == |s.pool.running| + 1
      && Ending(s, Dispatch(chosenAt, startedAt)) == s.ending + (if Launches(s, id) then {} else {id})
  {
    hide H.Step, H.Inv, P.Run, P.WellQueued, P.Counted, InQueue, P.Step, TicketsOk, InStep, Launches, Owned;
    DispatchOut(s.pool, chosenAt, startedAt, t);
    OneEvent(s.pool, P.Dispatch(chosenAt, startedAt));
    OneMoreKey(s.pool.running, P.Step(s.pool, P.Dispatch(chosenAt, startedAt)).running,
               s.pool.queue[P.Pick(s.pool, chosenAt)].id);
  }

  lemma OneMoreKey(before: map<nat, bool>, after: map<nat, bool>, id: nat)
    requires id !in before && after.Keys == before.Keys + {id}
    ensures |after| == |before| + 1
  {
    assert |after| == |after.Keys| && |before| == |before.Keys|;
  }

  lemma OwnerIs(s: Slots, t: nat, j: nat)
    requires TicketsOk(s.tickets, s.hub.jobs.Keys, s.pool.nextId) && Owned(s, t)
    ensures Owner(s, t) in s.tickets && s.tickets[Owner(s, t)] == t && Owner(s, t) in s.hub.jobs
    ensures j in s.tickets && s.tickets[j] == t ==> j == Owner(s, t)
  {}

  // The slot event of job `k` and the jobs.
  lemma FlagsAfterSlot(h: H.Hub, k: nat, j: nat)
    requires H.Inv(h, h.step) && k in h.jobs && h.jobs[k].queued && j in H.Step(h, H.Slot(k)).jobs
    ensures j in h.jobs
    ensures var job := H.Step(h, H.Slot(k)).jobs[j];
      if j == k then !job.queued && (Reading(job) <==> job.started) && !Reading(h.jobs[j])
      else job.queued == h.jobs[j].queued && Reading(job) == Reading(h.jobs[j])
  {
    hide H.Inv, H.Step;
    if j !in h.jobs { HubCreates(h, H.Slot(k), j); }
    HubMoves(h, H.Slot(k), j);
    JobIsOk(h, j, h.step);
    if j == k { SlotTaken(h, k); }
  }

  lemma DispatchKeepsStep(s: Slots, chosenAt: int, startedAt: int, j: nat)
    requires Linked(s) && P.Pick(s.pool, chosenAt) >= 0
    requires j in Step(s, Dispatch(chosenAt, startedAt)).hub.jobs
    ensures var g := Step(s, Dispatch(chosenAt, startedAt)); InStep(g.hub.jobs[j], j, g.pool, g.tickets, g.ending)
  {
    hide H.Step, H.Inv, P.Run, P.WellQueued, P.Counted, InQueue, Reading, PoolEvents, TicketsOk, Owned, Owner;
    var id := s.pool.queue[P.Pick(s.pool, chosenAt)].id;
    PoolAfterDispatch(s, chosenAt, startedAt, if j in s.tickets then s.tickets[j] else id);
    OwnerIs(s, id, j);
    var k := Owner(s, id);
    assert InStep(s.hub.jobs[k], k, s.pool, s.tickets, s.ending);
    FlagsAfterSlot(s.hub, k, j);
    assert InStep(s.hub.jobs[j], j, s.pool, s.tickets, s.ending);
  }

  lemma DispatchKeepsLink(s: Slots, chosenAt: int, startedAt: int)
    requires Linked(s)
    ensures Linked(Step(s, Dispatch(chosenAt, startedAt)))
  {
    hide H.Step, H.Inv, P.Run, P.WellQueued, P.Counted, InQueue, InStep, TicketsOk, Owner, Reading, P.Step, Launches;
    var e := Dispatch(chosenAt, startedAt);
    var g := Step(s, e);
    P.RunKeepsCounts(s.pool, PoolEvents(s, e));
    if P.Pick(s.pool, chosenAt) < 0 {
      OneEvent(s.pool, P.Dispatch(chosenAt, startedAt));
      IdleDispatch(s, chosenAt, startedAt);
    } else {
      var id := s.pool.queue[P.Pick(s.pool, chosenAt)].id;
      PoolAfterDispatch(s, chosenAt, startedAt, id);
      OwnerIs(s, id, 0);
      QueuedByTicket(s, Owner(s, id));
      HubGoesOn(s.hub, H.Slot(Owner(s, id)));
      SlotKeepsJobs(s.hub, Owner(s, id));
      forall j | j in g.hub.jobs ensures InStep(g.hub.jobs[j], j, g.pool, g.tickets, g.ending) {
        DispatchKeepsStep(s, chosenAt, startedAt, j);
      }
      forall t | InQueue(g.pool, t) || Runs(g.pool, g.ending, t) ensures Owned(g, t) {
        PoolAfterDispatch(s, chosenAt, startedAt, t);
        assert Owned(s, t);
      }
      forall t | t in g.ending ensures t in g.pool.running { PoolAfterDispatch(s, chosenAt, startedAt, t); }
    }
  }

  lemma QueuedByTicket(s: Slots, j: nat)
    requires Linked(s) && j in s.tickets && InQueue(s.pool, s.tickets[j])
    ensures j in s.hub.jobs && s.hub.jobs[j].queued
  {
    assert InStep(s.hub.jobs[j], j, s.pool, s.tickets, s.ending);
  }

  lemma SlotKeepsJobs(h: H.Hub, k: nat)
    requires H.Inv(h, h.step) && k in h.jobs && h.jobs[k].queued
    ensures H.Step(h, H.Slot(k)).jobs.Keys == h.jobs.Keys
  {
    hide H.Inv, H.Step, FlagsMove;
    forall j ensures j in H.Step(h, H.Slot(k)).jobs <==> j in h.jobs {
      if j in H.Step(h, H.Slot(k)).jobs { FlagsAfterSlot(h, k, j); }
      if j in h.jobs { HubMoves(h, H.Slot(k), j); }
    }
  }

  // Nothing may run: only the clock reading is noted.
  lemma IdleDispatch(s: Slots, chosenAt: int, startedAt: int)
    requires Linked(s) && P.Pick(s.pool, chosenAt) < 0
    ensures Linked(Step(s, Dispatch(chosenAt, startedAt)))
  {
    hide H.Inv, P.Run, P.Counted, H.Step;
    OneEvent(s.pool, P.Dispatch(chosenAt, startedAt));
    P.RunKeepsCounts(s.pool, [P.Dispatch(chosenAt, startedAt)]);
    var g := Step(s, Dispatch(chosenAt, startedAt));
    DispatchOut(s.pool, chosenAt, startedAt, 0);
    SameTickets(s, g);
  }

  // The same tickets wait, and the same runs last.
  ghost predicate SamePlaces(s: Slots, g: Slots) {
    && g.pool.nextId == s.pool.nextId && g.ending <= g.pool.running.Keys
    && forall t :: (InQueue(g.pool, t) <==> InQueue(s.pool, t))
                   && (Runs(g.pool, g.ending, t) <==> Runs(s.pool, s.ending, t))
  }

  lemma SameTickets(s: Slots, g: Slots)
    requires Linked(s) && g.hub == s.hub && g.tickets == s.tickets && SamePlaces(s, g)
    requires P.WellQueued(g.pool) && P.Counted(g.pool)
    ensures Linked(g)
  {
    hide H.Inv, P.WellQueued, P.Counted, InQueue, TicketsOk;
    forall j | j in g.hub.jobs ensures InStep(g.hub.jobs[j], j, g.pool, g.tickets, g.ending) {
      assert InStep(s.hub.jobs[j], j, s.pool, s.tickets, s.ending);
    }
    forall t | InQueue(g.pool, t) || Runs(g.pool, g.ending, t) ensures Owned(g, t) { assert Owned(s, t); }
  }

  lemma RaiseKeepsLink(s: Slots, j: nat, priority: P.Priority)
    requires Linked(s)
    ensures Linked(Step(s, RaiseJob(j, priority)))
  {
    hide H.Inv, P.Run, P.WellQueued, P.Counted, InQueue, P.Step, TicketsOk;
    var g := Step(s, RaiseJob(j, priority));
    P.RunKeepsCounts(s.pool, PoolEvents(s, RaiseJob(j, priority)));
    P.RunNothing(s.pool);
    if j in s.tickets {
      OneEvent(s.pool, P.Raise(s.tickets[j], priority));
      forall t ensures InQueue(g.pool, t) <==> InQueue(s.pool, t) { RaiseIn(s.pool, s.tickets[j], priority, t); }
      RaiseIn(s.pool, s.tickets[j], priority, 0);
    }
    SameTickets(s, g);
  }

  lemma FlagsAfterReturn(h: H.Hub, k: nat, value: Option<nat>, now: int, j: nat)
    requires H.Inv(h, h.step) && k in h.jobs && Reading(h.jobs[k]) && j in H.Step(h, H.Complete(k, value, now)).jobs
    ensures j in h.jobs
    ensures var job := H.Step(h, H.Complete(k, value, now)).jobs[j];
      && job.queued == h.jobs[j].queued
      && Reading(job) == (Reading(h.jobs[j]) && j != k)
  {
    hide H.Inv, H.Step;
    if j !in h.jobs { HubCreates(h, H.Complete(k, value, now), j); }
    HubMoves(h, H.Complete(k, value, now), j);
    if j == k { ReadEnded(h, k, value, now); }
  }

  lemma ReturnKeepsStep(s: Slots, k: nat, value: Option<nat>, now: int, j: nat)
    requires Linked(s) && k in s.hub.jobs && Reading(s.hub.jobs[k]) && k in s.tickets
    requires j in Step(s, Return(k, value, now)).hub.jobs
    ensures var g := Step(s, Return(k, value, now)); InStep(g.hub.jobs[j], j, g.pool, g.tickets, g.ending)
  {
    hide H.Step, H.Inv, P.Run, P.WellQueued, P.Counted, InQueue, Reading, P.Step;
    P.RunNothing(s.pool);
    FlagsAfterReturn(s.hub, k, value, now, j);
    assert InStep(s.hub.jobs[j], j, s.pool, s.tickets, s.ending);
  }

  lemma ReturnKeepsLink(s: Slots, k: nat, value: Option<nat>, now: int)
    requires Linked(s)
    ensures Linked(Step(s, Return(k, value, now)))
  {
    hide H.Step, H.Inv, P.Run, P.WellQueued, P.Counted, InQueue, Reading, P.Step, InStep, TicketsOk;
    var g := Step(s, Return(k, value, now));
    P.RunNothing(s.pool);
    if k in s.hub.jobs && Reading(s.hub.jobs[k]) && k in s.tickets {
      ReadersRun(s, k);
      HubGoesOn(s.hub, H.Complete(k, value, now));
      ReturnKeepsJobs(s.hub, k, value, now);
      forall j | j in g.hub.jobs ensures InStep(g.hub.jobs[j], j, g.pool, g.tickets, g.ending) {
        ReturnKeepsStep(s, k, value, now, j);
      }
      forall t | InQueue(g.pool, t) || Runs(g.pool, g.ending, t) ensures Owned(g, t) {
        assert Owned(s, t);
      }
    }
  }

  lemma ReadersRun(s: Slots, j: nat)
    requires Linked(s) && j in s.hub.jobs && Reading(s.hub.jobs[j])
    ensures j in s.tickets && Runs(s.pool, s.ending, s.tickets[j])
  {
    hide H.Inv, P.WellQueued, P.Counted, InQueue, TicketsOk;
    assert InStep(s.hub.jobs[j], j, s.pool, s.tickets, s.ending);
  }

  lemma ReleaseKeepsLink(s: Slots, t: nat)
    requires Linked(s)
    ensures Linked(Step(s, Release(t)))
  {
    hide H.Inv, P.Run, P.WellQueued, P.Counted, InQueue, P.Step, TicketsOk, InStep, Owned, Runs;
    P.RunKeepsCounts(s.pool, PoolEvents(s, Release(t)));
    ReleaseKeepsPlaces(s, t);
    SameTickets(s, Step(s, Release(t)));
  }

  lemma ReleaseKeepsPlaces(s: Slots, t: nat)
    requires s.ending <= s.pool.running.Keys
    ensures SamePlaces(s, Step(s, Release(t)))
  {
    hide P.Run, InQueue, P.Step;
    var g := Step(s, Release(t));
    P.RunNothing(s.pool);
    if t in s.ending {
      OneEvent(s.pool, P.Finish(t));
      forall u ensures (InQueue(g.pool, u) <==> InQueue(s.pool, u)) && g.pool.running == s.pool.running - {t}
      {
        FinishOut(s.pool, t, u);
      }
      FinishOut(s.pool, t, 0);
    }
  }

  lemma ReturnKeepsJobs(h: H.Hub, k: nat, value: Option<nat>, now: int)
    requires H.Inv(h, h.step) && k in h.jobs && Reading(h.jobs[k])
    ensures H.Step(h, H.Complete(k, value, now)).jobs.Keys == h.jobs.Keys
  {
    hide H.Inv, H.Step, FlagsMove, Reading;
    forall j ensures j in H.Step(h, H.Complete(k, value, now)).jobs <==> j in h.jobs {
      if j in H.Step(h, H.Complete(k, value, now)).jobs { FlagsAfterReturn(h, k, value, now, j); }
      if j in h.jobs { HubMoves(h, H.Complete(k, value, now), j); }
    }
  }

  lemma StepKeepsLink(s: Slots, e: Event)
    requires Linked(s)
    ensures Linked(Step(s, e))
  {
    hide Linked, Step, P.Run;
    match e
    case OnHub(h, priority, at) =>
      if h.Slot? || h.Complete? { NothingHappens(s, e); } else { HubKeepsLink(s, h, priority, at); }
    case RaiseJob(j, priority) => RaiseKeepsLink(s, j, priority);
    case Dispatch(chosenAt, startedAt) => DispatchKeepsLink(s, chosenAt, startedAt);
    case Return(j, value, now) => ReturnKeepsLink(s, j, value, now);
    case Release(t) => ReleaseKeepsLink(s, t);
  }

  lemma NothingHappens(s: Slots, e: Event)
    requires e.OnHub? && (e.event.Slot? || e.event.Complete?)
    ensures Step(s, e) == s
  {
    hide P.Run, H.Step;
    P.RunNothing(s.pool);
  }

  lemma NothingIsLinked()
    ensures Linked(NO_SLOTS)
  {
    assert P.BackgroundIds(map[]) == {};
  }

  // ---- The slots over every run ----

  function ReadingJobs(jobs: map<nat, H.Job>): set<nat> {
    set j | j in jobs && Reading(jobs[j])
  }

  lemma {:induction false} SameSize(some: set<nat>, others: set<nat>, f: map<nat, nat>)
    requires some <= f.Keys && (forall j | j in some :: f[j] in others)
    requires forall j, k | j in some && k in some && f[j] == f[k] :: j == k
    requires forall t | t in others :: exists j :: j in some && f[j] == t
    ensures |some| == |others|
  {
    if some == {} {
      assert others == {};
    } else {
      var j :| j in some;
      SameSize(some - {j}, others - {f[j]}, f);
    }
  }

  lemma ReadersHoldSlots(s: Slots)
    requires Linked(s)
    ensures |ReadingJobs(s.hub.jobs)| + |s.ending| == |s.pool.running|
  {
    hide H.Inv, P.WellQueued, P.Counted, InQueue, Reading;
    var lasting := s.pool.running.Keys - s.ending;
    forall j | j in ReadingJobs(s.hub.jobs) ensures j in s.tickets && s.tickets[j] in lasting { ReadersRun(s, j); }
    forall t | t in lasting ensures exists j :: j in ReadingJobs(s.hub.jobs) && s.tickets[j] == t {
      assert Runs(s.pool, s.ending, t) && Owned(s, t);
      var j :| j in s.tickets && s.tickets[j] == t;
      assert InStep(s.hub.jobs[j], j, s.pool, s.tickets, s.ending);
      assert j in ReadingJobs(s.hub.jobs);
    }
    SameSize(ReadingJobs(s.hub.jobs), lasting, s.tickets);
    assert |s.pool.running| == |s.pool.running.Keys|;
  }

  lemma PlacesAreLive(s: Slots, j: nat)
    requires Linked(s) && j in s.tickets && InQueue(s.pool, s.tickets[j])
    ensures j in s.hub.jobs && H.Live(s.hub.jobs[j]) && s.hub.jobs[j].subscribers != {}
  {
    hide InQueue, P.WellQueued, P.Counted;
    QueuedByTicket(s, j);
    hide H.Inv;
    JobIsOk(s.hub, j, s.hub.step);
  }

  // Over every run of all clients: a job waits in the pool exactly while it is queued, and then somebody
  // waits for it; a slot is held by a job that reads or by a run that has settled, never by both, so at most
  // four jobs read at once.
  lemma {:induction false} JobsShareTheSlots(events: seq<Event>)
    ensures var s := Run(events);
      && Linked(s)
      && (forall j | j in s.tickets && InQueue(s.pool, s.tickets[j]) ::
            j in s.hub.jobs && H.Live(s.hub.jobs[j]) && s.hub.jobs[j].subscribers != {})
      && |ReadingJobs(s.hub.jobs)| + |s.ending| == s.pool.runningReads <= P.CLI_READ_CONCURRENCY
  {
    hide Linked, Step, InQueue;
    if events == [] {
      NothingIsLinked();
    } else {
      JobsShareTheSlots(events[..|events| - 1]);
      StepKeepsLink(Run(events[..|events| - 1]), events[|events| - 1]);
    }
    var s := Run(events);
    SlotsAreCounted(s);
    forall j | j in s.tickets && InQueue(s.pool, s.tickets[j])
      ensures j in s.hub.jobs && H.Live(s.hub.jobs[j]) && s.hub.jobs[j].subscribers != {}
    {
      PlacesAreLive(s, j);
    }
  }

  lemma SlotsAreCounted(s: Slots)
    requires Linked(s)
    ensures |ReadingJobs(s.hub.jobs)| + |s.ending| == s.pool.runningReads <= P.CLI_READ_CONCURRENCY
    ensures s.pool.runningReads == |s.pool.running|
  {
    ReadersHoldSlots(s);
    hide H.Inv, ReadingJobs;
  }

  // A dispatched job reads unless a mutation is in flight. One that meets a mutation neither reads nor
  // waits, and its ticket keeps the slot until it is released; then every slot is as free as before.
  lemma MutationGivesTheSlotBack(s: Slots, chosenAt: int, startedAt: int)
    requires Linked(s) && P.Pick(s.pool, chosenAt) >= 0
    ensures var t := s.pool.queue[P.Pick(s.pool, chosenAt)].id;
      && Owned(s, t) && Owner(s, t) in s.hub.jobs
      && var job, g := s.hub.jobs[Owner(s, t)], Step(s, Dispatch(chosenAt, startedAt));
         && Owner(s, t) in g.hub.jobs && t in g.pool.running && !InQueue(g.pool, t)
         && g.pool.runningReads == s.pool.runningReads + 1
         && if !H.Mutating(s.hub.operations, job.repository)
            then Reading(g.hub.jobs[Owner(s, t)]) && t !in g.ending
            else !Reading(g.hub.jobs[Owner(s, t)]) && !g.hub.jobs[Owner(s, t)].queued && t in g.ending
                 && var freed := Step(g, Release(t)).pool;
                    freed.running.Keys == s.pool.running.Keys && freed.runningReads == s.pool.runningReads
  {
    hide H.Step, H.Inv, P.Run, P.WellQueued, P.Counted, InQueue, P.Step, H.Mutating, Launches, Owner, PoolEvents,
         Linked, Reading;
    var t := s.pool.queue[P.Pick(s.pool, chosenAt)].id;
    var g := Step(s, Dispatch(chosenAt, startedAt));
    PoolAfterDispatch(s, chosenAt, startedAt, t);
    SlotOfOwner(s, t);
    DispatchKeepsLink(s, chosenAt, startedAt);
    SlotsAreCounted(s);
    SlotsAreCounted(g);
    if !Launches(s, t) {
      forall u ensures u in g.pool.running <==> u in s.pool.running || u == t {
        PoolAfterDispatch(s, chosenAt, startedAt, u);
      }
      Freed(g, t);
      assert Step(g, Release(t)).pool.running.Keys == s.pool.running.Keys;
    }
  }

  // The job whose ticket is dispatched reads exactly if it launches, and it launches unless a mutation is in
  // flight.
  lemma SlotOfOwner(s: Slots, t: nat)
    requires Linked(s) && InQueue(s.pool, t) && Owned(s, t)
    ensures var j := Owner(s, t); var g := H.Step(s.hub, H.Slot(j));
      && j in s.hub.jobs && j in g.jobs && !g.jobs[j].queued
      && (Launches(s, t) <==> Reading(g.jobs[j]))
      && (Launches(s, t) <==> !H.Mutating(s.hub.operations, s.hub.jobs[j].repository))
  {
    hide H.Step, H.Inv, P.WellQueued, P.Counted, InQueue, TicketsOk, Owner, H.Mutating, Reading;
    OwnedJob(s, t);
    QueuedByTicket(s, Owner(s, t));
    PlacesAreLive(s, Owner(s, t));
    SlotTaken(s.hub, Owner(s, t));
  }

  lemma OwnedJob(s: Slots, t: nat)
    requires Linked(s) && Owned(s, t)
    ensures Owner(s, t) in s.tickets && s.tickets[Owner(s, t)] == t
  {
    OwnerIs(s, t, 0);
  }

  // A settled run gives back its slot and no other.
  lemma Freed(s: Slots, t: nat)
    requires Linked(s) && t in s.ending
    ensures var g := Step(s, Release(t));
      && g.pool.running.Keys == s.pool.running.Keys - {t} && g.pool.runningReads == s.pool.runningReads - 1
      && g.ending == s.ending - {t}
  {
    hide H.Inv, P.Run, P.WellQueued, P.Counted, InQueue, TicketsOk;
    OneEvent(s.pool, P.Finish(t));
  }

  ghost predicate Spent(s: Slots, t: nat) {
    t < s.pool.nextId && !InQueue(s.pool, t) && t !in s.pool.running
  }

  lemma EndingHolds(s: Slots, t: nat)
    requires Linked(s) && t in s.ending
    ensures t in s.pool.running && t < s.pool.nextId && !InQueue(s.pool, t)
  {}

  lemma SpentHoldsNothing(s: Slots, t: nat)
    requires Linked(s) && Spent(s, t)
    ensures t !in s.ending
  {}

  lemma HeldOn(s: Slots, e: Event, t: nat)
    requires Linked(s) && t in s.ending
    ensures e == Release(t) ==> t !in Step(s, e).ending && Spent(Step(s, e), t)
    ensures e != Release(t) ==> t in Step(s, e).ending
  {
    hide H.Step, H.Inv, P.Run, P.WellQueued, P.Counted, InQueue, TicketsOk, P.Step, Launches, Owned, HubEvent;
    EndingHolds(s, t);
    if e == Release(t) {
      OneEvent(s.pool, P.Finish(t));
      FinishOut(s.pool, t, t);
    }
  }

  // A ticket that left the queue never comes back.
  lemma GoneForGood(p: P.Pool, e: P.Event, t: nat)
    requires P.WellQueued(p) && t < p.nextId && !InQueue(p, t)
    ensures var q := P.Step(p, e);
      !InQueue(q, t) && t < q.nextId && (t !in p.running ==> t !in q.running)
  {
    hide InQueue, P.WellQueued, P.Step;
    match e
    case Enqueue(priority, at) => EnqueueIn(p, priority, at, t);
    case Raise(id, priority) => RaiseIn(p, id, priority, t);
    case Cancel(id) => CancelOut(p, id, t);
    case Dispatch(chosenAt, startedAt) => AfterDispatch(p, chosenAt, startedAt, t);
    case Finish(id) => FinishOut(p, id, t);
  }

  lemma AfterDispatch(p: P.Pool, chosenAt: int, startedAt: int, t: nat)
    requires P.WellQueued(p) && !InQueue(p, t)
    ensures var q := P.Step(p, P.Dispatch(chosenAt, startedAt));
      !InQueue(q, t) && q.nextId == p.nextId && (t !in p.running ==> t !in q.running)
  {
    DispatchOut(p, chosenAt, startedAt, t);
    hide P.WellQueued, P.Step, InQueue;
  }

  lemma {:induction false} StaysSpent(p: P.Pool, events: seq<P.Event>, t: nat)
    requires P.WellQueued(p) && P.Counted(p) && t < p.nextId && !InQueue(p, t) && t !in p.running
    ensures var q := P.Run(p, events); t < q.nextId && !InQueue(q, t) && t !in q.running
  {
    hide InQueue, P.WellQueued, P.Counted, P.Step;
    if events != [] {
      var front := events[..|events| - 1];
      StaysSpent(p, front, t);
      P.RunKeepsCounts(p, front);
      GoneForGood(P.Run(p, front), events[|events| - 1], t);
    }
  }

  lemma SpentForGood(s: Slots, e: Event, t: nat)
    requires Linked(s) && Spent(s, t)
    ensures Spent(Step(s, e), t)
  {
    hide P.Run, P.WellQueued, P.Counted, InQueue, PoolEvents, TicketsOk, H.Inv;
    StaysSpent(s.pool, PoolEvents(s, e), t);
  }

  // Over every run: a settled run holds its slot exactly until it is released, and its ticket holds none ever
  // after.
  lemma {:induction false} SlotsAreHeldUntilReleased(events: seq<Event>, n: nat, t: nat)
    requires n <= |events| && t in Run(events[..n]).ending
    ensures t in Run(events).ending && t in Run(events).pool.running
            <==> forall k | n <= k < |events| :: events[k] != Release(t)
    ensures !(t in Run(events).ending) ==> Spent(Run(events), t)
  {
    hide Step, P.Run, Linked, Spent;
    JobsShareTheSlots(events);
    if n == |events| {
      assert events[..n] == events;
      EndingHolds(Run(events), t);
    } else {
      var front, last := events[..|events| - 1], events[|events| - 1];
      assert front[..n] == events[..n] && events[|front|] == last;
      assert forall k | n <= k < |front| :: events[k] == front[k];
      SlotsAreHeldUntilReleased(front, n, t);
      JobsShareTheSlots(front);
      if t in Run(front).ending {
        EndingHolds(Run(front), t);
        HeldOn(Run(front), last, t);
        if t in Run(events).ending { EndingHolds(Run(events), t); }
      } else {
        SpentForGood(Run(front), last, t);
        SpentHoldsNothing(Run(events), t);
      }
    }
  }

  // ---- The pool's theorems hold for jobs ----

  ghost function PoolEventsFrom(events: seq<Event>, n: nat): seq<P.Event>
    requires n <= |events|
    decreases |events|
  {
    if n == |events| then []
    else
      var front := events[..|events| - 1];
      PoolEventsFrom(front, n) + PoolEvents(Run(front), events[|front|])
  }

  lemma {:induction false} PoolIsARun(events: seq<Event>, n: nat)
    requires n <= |events|
    ensures Run(events).pool == P.Run(Run(events[..n]).pool, PoolEventsFrom(events, n))
    decreases |events|
  {
    hide P.Run, PoolEvents, HubEvent;
    if n == |events| {
      assert events[..n] == events;
      P.RunNothing(Run(events).pool);
    } else {
      var front := events[..|events| - 1];
      PoolIsARun(front, n);
      assert front[..n] == events[..n];
      P.RunConcat(Run(events[..n]).pool, PoolEventsFrom(front, n), PoolEvents(Run(front), events[|front|]));
    }
  }

  ghost function HubEvents(events: seq<Event>): seq<H.Event> {
    if events == [] then []
    else
      var front, last := events[..|events| - 1], events[|events| - 1];
      HubEvents(front) + (if HubEvent(Run(front), last).Some? then [HubEvent(Run(front), last).value] else [])
  }

  // And so do the hub's.
  lemma {:induction false} HubIsARun(events: seq<Event>)
    ensures Run(events).hub == H.Run(HubEvents(events))
  {
    hide H.Step, HubEvent, PoolEvents, Queuing;
    if events != [] {
      var front, last := events[..|events| - 1], events[|events| - 1];
      HubIsARun(front);
      if HubEvent(Run(front), last).Some? {
        var e := HubEvent(Run(front), last).value;
        assert (HubEvents(front) + [e])[..|HubEvents(front)|] == HubEvents(front);
      } else {
        assert HubEvents(front) + [] == HubEvents(front);
      }
    }
  }

  lemma {:induction false} InQueueThroughout(p: P.Pool, events: seq<P.Event>, n: nat, t: nat)
    requires P.WellQueued(p) && P.Counted(p) && t < p.nextId && n <= |events| && InQueue(P.Run(p, events), t)
    ensures InQueue(P.Run(p, events[..n]), t)
  {
    hide P.Run, P.Step, InQueue, P.WellQueued, P.Counted;
    if n == |events| {
      assert events[..n] == events;
    } else {
      var front, last := events[..|events| - 1], events[|events| - 1];
      P.RunKeepsCounts(p, front);
      assert events == front + [last] && front[..n] == events[..n];
      P.RunStep(p, front, last);
      NamesGrow(p, front);
      if !InQueue(P.Run(p, front), t) { GoneForGood(P.Run(p, front), last, t); }
      InQueueThroughout(p, front, n, t);
    }
  }

  lemma {:induction false} NamesGrow(p: P.Pool, events: seq<P.Event>)
    ensures p.nextId <= P.Run(p, events).nextId
  {
    if events != [] { NamesGrow(p, events[..|events| - 1]); }
  }

  // While a job waits that somebody is waiting on, every non-interactive read started, of any client, was
  // ahead of it in the queue, and nothing behind it passes an interactive one.
  lemma WaitingJobsAreNotOvertaken(events: seq<Event>, n: nat, j: nat)
    requires n <= |events| && j in Run(events[..n]).tickets
    requires var s, t := Run(events[..n]), Run(events[..n]).tickets[j];
      && P.Reserved(s.pool) && P.Waiting(s.pool, t) && InQueue(Run(events).pool, t)
      && P.TimelyRun(s.pool, PoolEventsFrom(events, n))
    ensures var s, g, t := Run(events[..n]), Run(events), Run(events[..n]).tickets[j];
            var i, k := P.IndexOf(s.pool.queue, t), P.IndexOf(g.pool.queue, t);
      && P.Overtakes(g.pool.log) + k <= P.Overtakes(s.pool.log) + i
      && (s.pool.queue[i].priority == P.Interactive ==> |g.pool.log| + k <= |s.pool.log| + i)
  {
    hide Run, P.Run, PoolEventsFrom, P.WellQueued, P.Counted, H.Inv, P.TimelyRun;
    JobsShareTheSlots(events[..n]);
    var s, more, t := Run(events[..n]), PoolEventsFrom(events, n), Run(events[..n]).tickets[j];
    PoolIsARun(events, n);
    forall m | 0 <= m <= |more| ensures P.IndexOf(P.Run(s.pool, more[..m]).queue, t) >= 0 {
      InQueueThroughout(s.pool, more, m, t);
    }
    P.BoundedOvertaking(s.pool, more, t);
  }
}
