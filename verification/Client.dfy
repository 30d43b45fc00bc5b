// The hub as client.ts writes it: maps and counters changed in place, one method per stretch of code
// between two awaits. Each method is proved against the hub's step functions.
module Clients {
  import opened ReadHubs
  import ReadWaits
  import opened Wrappers

  // ---- Leaving one by one is leaving together ----

  lemma DepartInTurn(job: Job, gone: set<nat>, s: nat)
    requires s !in gone
    ensures Depart(Depart(job, gone), {s}) == Depart(job, gone + {s})
    ensures Abandons(job, gone + {s}) <==> Abandons(job, gone) || Abandons(Depart(job, gone), {s})
  {}

  lemma DepartAllInTurn(jobs: map<nat, Job>, gone: set<nat>, s: nat)
    requires s !in gone
    ensures DepartAll(DepartAll(jobs, gone), {s}) == DepartAll(jobs, gone + {s})
  {
    forall j | j in jobs ensures Depart(Depart(jobs[j], gone), {s}) == Depart(jobs[j], gone + {s}) {
      DepartInTurn(jobs[j], gone, s);
    }
  }

  lemma SharedInTurn(shared: map<ShareKey, nat>, jobs: map<nat, Job>, gone: set<nat>, s: nat)
    requires s !in gone && forall k | k in shared :: shared[k] in jobs
    ensures StillShared(StillShared(shared, jobs, gone), DepartAll(jobs, gone), {s})
         == StillShared(shared, jobs, gone + {s})
  {}

  lemma ReadJobsInTurn(readJobs: set<nat>, jobs: map<nat, Job>, subscribers: map<nat, Subscriber>,
                       c: nat, gone: set<nat>, s: nat)
    requires forall j | j in readJobs :: j in jobs
    ensures StillRead(StillRead(readJobs, DepartAll(jobs, gone), subscribers, c),
                      DepartAll(jobs, gone + {s}), SettleAll(subscribers, gone), c)
         == StillRead(readJobs, DepartAll(jobs, gone + {s}), subscribers, c)
  {}

  lemma SettleAllInTurn(subscribers: map<nat, Subscriber>, gone: set<nat>, s: nat)
    requires s !in gone
    ensures SettleAll(SettleAll(subscribers, gone), {s}) == SettleAll(subscribers, gone + {s})
  {}

  lemma JobsAreThere(h: Hub, c: nat)
    requires SharedOk(h.shared, h.jobs) && OwnersOk(h.clients, h.jobs, h.subscribers) && c in h.clients
    ensures forall k | k in h.shared :: h.shared[k] in h.jobs
    ensures forall j | j in h.clients[c].readJobs :: j in h.jobs
  {}

  // Rejecting a client's subscribers in any order is rejecting them together.
  lemma LeaveInTurn(h: Hub, c: nat, gone: set<nat>, s: nat)
    requires c in h.clients && s !in gone
    requires forall k | k in h.shared :: h.shared[k] in h.jobs
    requires forall j | j in h.clients[c].readJobs :: j in h.jobs
    ensures Leave(Leave(h, c, gone), c, {s}) == Leave(h, c, gone + {s})
  {
    hide DepartAll, SettleAll, StillShared, StillRead;
    DepartAllInTurn(h.jobs, gone, s);
    SharedInTurn(h.shared, h.jobs, gone, s);
    ReadJobsInTurn(h.clients[c].readJobs, h.jobs, h.subscribers, c, gone, s);
    SettleAllInTurn(h.subscribers, gone, s);
    assert Leave(Leave(h, c, gone), c, {s}).clients == Leave(h, c, gone + {s}).clients;
  }

  lemma NobodyLeaving(h: Hub, c: nat)
    requires Inv(h, h.step + 1) && c in h.clients
    ensures Leave(h, c, {}) == h
  {
    NobodyLeaves(h.jobs, h.subscribers);
    assert StillShared(h.shared, h.jobs, {}) == h.shared;
    assert StillRead(h.clients[c].readJobs, h.jobs, h.subscribers, c) == h.clients[c].readJobs;
  }

  // ---- What one departure touches ----

  lemma OneDeparts(h: Hub, j: nat, s: nat)
    requires SubscribersOk(h.subscribers, h.jobs, h.clients.Keys, h.step + 1)
    requires j in h.jobs && s in h.subscribers && h.subscribers[s].job == j
    ensures DepartAll(h.jobs, {s}) == h.jobs[j := Depart(h.jobs[j], {s})]
    ensures SettleAll(h.subscribers, {s}) ==
            h.subscribers[s := h.subscribers[s].(settled := h.subscribers[s].settled + 1)]
  {
    forall i | i in h.jobs && i != j ensures Depart(h.jobs[i], {s}) == h.jobs[i] {
      assert h.jobs[i].subscribers - {s} == h.jobs[i].subscribers;
    }
  }

  lemma OneUnshares(h: Hub, j: nat, s: nat)
    requires Inv(h, h.step + 1) && j in h.jobs && s in h.jobs[j].subscribers
    ensures StillShared(h.shared, h.jobs, {s}) ==
            (if Abandons(h.jobs[j], {s}) && h.jobs[j].key.Some? then h.shared - {h.jobs[j].key.value} else h.shared)
  {
    forall k | k in h.shared
      ensures Abandons(h.jobs[h.shared[k]], {s}) <==> Abandons(h.jobs[j], {s}) && h.jobs[j].key == Some(k)
    {
      var i := h.shared[k];
      assert h.subscribers[s].job == j && (s in h.jobs[i].subscribers ==> h.subscribers[s].job == i);
      assert h.jobs[i].subscribers * {s} == (if i == j then {s} else {});
    }
  }

  predicate Waiting(h: Hub, s: nat) {
    && s in h.subscribers && h.subscribers[s].owner in h.clients && h.subscribers[s].job in h.jobs
    && s in h.jobs[h.subscribers[s].job].subscribers
  }

  lemma PendingWaits(h: Hub, s: nat)
    requires SubscribersOk(h.subscribers, h.jobs, h.clients.Keys, h.step + 1)
    requires s in h.subscribers && h.subscribers[s].settled == 0
    ensures Waiting(h, s)
  {}

  function ReadJobsLeft(h: Hub, s: nat): set<nat>
    requires Waiting(h, s)
  {
    var c, j := h.subscribers[s].owner, h.subscribers[s].job;
    if Owns(h.subscribers, c, h.jobs[j].subscribers - {s}) then h.clients[c].readJobs
    else h.clients[c].readJobs - {j}
  }

  function SharedLeft(h: Hub, s: nat): map<ShareKey, nat>
    requires Waiting(h, s)
  {
    var j := h.subscribers[s].job;
    var job := h.jobs[j];
    if job.subscribers - {s} == {} && !job.finished && job.key.Some? && job.key.value in h.shared
       && h.shared[job.key.value] == j
    then h.shared - {job.key.value} else h.shared
  }

  // leaveRead, field by field.
  function LeftBy(h: Hub, s: nat): Hub
    requires Waiting(h, s)
  {
    var subscriber := h.subscribers[s];
    var c, j := subscriber.owner, subscriber.job;
    h.(jobs := h.jobs[j := Depart(h.jobs[j], {s})],
       subscribers := h.subscribers[s := subscriber.(settled := subscriber.settled + 1)],
       shared := SharedLeft(h, s),
       clients := h.clients[c := h.clients[c].(readJobs := ReadJobsLeft(h, s))])
  }

  lemma SharedLeftIsStillShared(h: Hub, s: nat)
    requires Inv(h, h.step + 1) && Waiting(h, s)
    ensures SharedLeft(h, s) == StillShared(h.shared, h.jobs, {s})
  {
    var j := h.subscribers[s].job;
    assert s in h.jobs[j].subscribers * {s};
    OneUnshares(h, j, s);
  }

  lemma ReadJobsLeftIsStillRead(h: Hub, s: nat)
    requires Inv(h, h.step + 1) && Waiting(h, s)
    ensures ReadJobsLeft(h, s) == StillRead(h.clients[h.subscribers[s].owner].readJobs, DepartAll(h.jobs, {s}),
                                            h.subscribers, h.subscribers[s].owner)
  {}

  lemma LeftByIsLeave(h: Hub, s: nat)
    requires Inv(h, h.step + 1) && Waiting(h, s)
    ensures LeftBy(h, s) == Leave(h, h.subscribers[s].owner, {s})
  {
    hide JobsOk, SharedOk, SubscribersOk, OwnersOk, EpochsOk, ResultsOk, OperationsOk,
         DepartAll, SettleAll, StillShared, StillRead, SharedLeft, ReadJobsLeft, Depart;
    OneDeparts(h, h.subscribers[s].job, s);
    SharedLeftIsStillShared(h, s);
    ReadJobsLeftIsStillRead(h, s);
  }

  lemma StillWaits(h: Hub, c: nat, gone: set<nat>, s: nat)
    requires SubscribersOk(h.subscribers, h.jobs, h.clients.Keys, h.step + 1)
    requires c in h.clients && s in PendingOf(h, c) && s !in gone
    ensures var g := Leave(h, c, gone);
            Waiting(g, s) && g.subscribers[s].owner == c && g.step == h.step
  {}

  lemma NextLeaves(h: Hub, g: Hub, c: nat, gone: set<nat>, s: nat)
    requires c in h.clients && s !in gone && g == Leave(h, c, gone)
    requires SharedOk(h.shared, h.jobs) && OwnersOk(h.clients, h.jobs, h.subscribers)
    requires Inv(g, g.step + 1) && Waiting(g, s) && g.subscribers[s].owner == c
    ensures LeftBy(g, s) == Leave(h, c, gone + {s})
  {
    hide Inv, LeftBy, Leave, Waiting, SharedOk, OwnersOk;
    JobsAreThere(h, c);
    LeaveInTurn(h, c, gone, s);
    LeftByIsLeave(g, s);
  }

  // ---- The loop over a client's own subscribers ----

  // Those of `c` that have left when jobs `todo` are still to be visited and, of the job being
  // visited, the subscribers `waiting`.
  function Visited(h: Hub, c: nat, todo: set<nat>, waiting: set<nat>): set<nat> {
    set s | s in PendingOf(h, c) && h.subscribers[s].job !in todo && s !in waiting
  }

  lemma VisitStarts(h: Hub, c: nat)
    requires Inv(h, h.step + 1) && c in h.clients
    ensures Visited(h, c, h.clients[c].readJobs, {}) == {}
  {}

  lemma VisitEnds(h: Hub, c: nat)
    ensures Visited(h, c, {}, {}) == PendingOf(h, c)
  {}

  lemma ReadJobsAreJobs(h: Hub, c: nat, j: nat)
    requires Inv(h, h.step + 1) && c in h.clients && j in h.clients[c].readJobs
    ensures j in h.jobs && SubscribersOk(h.subscribers, h.jobs, h.clients.Keys, h.step + 1)
  {}

  lemma VisitEnters(h: Hub, c: nat, gone: set<nat>, todo: set<nat>, j: nat)
    requires SubscribersOk(h.subscribers, h.jobs, h.clients.Keys, h.step + 1) && c in h.clients
    requires j in todo && j in h.jobs && gone == Visited(h, c, todo, {})
    ensures gone == Visited(h, c, todo - {j}, h.jobs[j].subscribers)
    ensures j in Leave(h, c, gone).jobs && Leave(h, c, gone).jobs[j].subscribers == h.jobs[j].subscribers
  {}

  // The visit's next step: subscriber `s` of job `j` is passed over, or leaves if it is the client's.
  lemma VisitMoves(h: Hub, c: nat, gone: set<nat>, todo: set<nat>, j: nat, waiting: set<nat>, s: nat)
    requires Inv(h, h.step + 1) && c in h.clients && j in h.jobs && j !in todo
    requires gone == Visited(h, c, todo, waiting) && s in waiting && waiting <= h.jobs[j].subscribers
    ensures var g := Leave(h, c, gone);
            && s in g.subscribers && (g.subscribers[s].owner == c <==> s in PendingOf(h, c))
            && (s in PendingOf(h, c) ==> Waiting(g, s) && LeftBy(g, s) == Leave(h, c, gone + {s}))
    ensures Visited(h, c, todo, waiting - {s}) == gone + (if s in PendingOf(h, c) then {s} else {})
  {
    hide Leave, LeftBy, Waiting, JobsOk, SharedOk, OwnersOk, EpochsOk, ResultsOk, OperationsOk;
    VisitFinds(h, c, gone, j, s);
    if s in PendingOf(h, c) {
      LeaveKeepsInv(h, c, gone, h.step + 1);
      StillWaits(h, c, gone, s);
      NextLeaves(h, Leave(h, c, gone), c, gone, s);
    }
  }

  lemma VisitFinds(h: Hub, c: nat, gone: set<nat>, j: nat, s: nat)
    requires SubscribersOk(h.subscribers, h.jobs, h.clients.Keys, h.step + 1) && c in h.clients
    requires j in h.jobs && s in h.jobs[j].subscribers
    ensures s in h.subscribers && h.subscribers[s].job == j
    ensures var g := Leave(h, c, gone);
            s in g.subscribers && (g.subscribers[s].owner == c <==> s in PendingOf(h, c))
  {}

  // ---- Delivering one by one is delivering together ----

  lemma UnexpiredUnfolds(results: seq<Entry>, now: int)
    ensures Unexpired(results, now) ==
            if results == [] then []
            else Unexpired(results[..|results| - 1], now) +
                 (if results[|results| - 1].expiresAt < now then [] else [results[|results| - 1]])
  {}

  lemma {:induction false} UnexpiredKeeps(results: seq<Entry>, now: int)
    requires forall i | 0 <= i < |results| :: results[i].expiresAt >= now
    ensures Unexpired(results, now) == results
  {
    hide Unexpired;
    UnexpiredUnfolds(results, now);
    if results != [] {
      var last := |results| - 1;
      UnexpiredKeeps(results[..last], now);
      assert results == results[..last] + [results[last]];
    }
  }

  lemma {:induction false} UnexpiredSurvive(results: seq<Entry>, now: int)
    ensures forall i | 0 <= i < |Unexpired(results, now)| :: Unexpired(results, now)[i].expiresAt >= now
    ensures |Unexpired(results, now)| <= |results|
  {
    hide Unexpired;
    UnexpiredUnfolds(results, now);
    if results != [] {
      UnexpiredSurvive(results[..|results| - 1], now);
    }
  }

  lemma {:induction false} LookupLast(results: seq<Entry>, entry: Entry, i: nat)
    requires i == Lookup(results, entry.readEpoch, entry.key)
    requires i < |results|
    ensures Lookup(results[i := entry], entry.readEpoch, entry.key) == i
  {
    var last := |results| - 1;
    if i < last {
      assert results[i := entry][..last] == results[..last][i := entry];
      LookupLast(results[..last], entry, i);
    }
  }

  // Storing one answer twice is storing it once: a cache that already holds it, within its bound
  // and with nothing expired, is left as it is.
  lemma StoreTwice(results: seq<Entry>, entry: Entry, now: int)
    requires |results| <= MAX_CACHED_RESULTS && entry.expiresAt >= now
    ensures Store(Store(results, entry, now), entry, now) == Store(results, entry, now)
  {
    var kept := Unexpired(results, now);
    UnexpiredSurvive(results, now);
    var stored := Store(results, entry, now);
    UnexpiredKeeps(stored, now);
    var i := Lookup(kept, entry.readEpoch, entry.key);
    if i >= 0 {
      LookupLast(kept, entry, i);
    } else {
      assert stored[|stored| - 1] == entry;
    }
  }

  predicate SameKey(a: Entry, b: Entry) {
    a.readEpoch == b.readEpoch && a.key == b.key
  }

  // A stored answer is found again, and costs at most the oldest of the others that are still current.
  lemma NewestAnswerIsKept(results: seq<Entry>, entry: Entry, now: int, other: Entry)
    requires |results| <= 32 && entry.expiresAt >= now
    ensures var stored, kept := Store(results, entry, now), Unexpired(results, now);
      && |stored| <= 32
      && Lookup(stored, entry.readEpoch, entry.key) >= 0
      && stored[Lookup(stored, entry.readEpoch, entry.key)] == entry
      && (other in kept && !SameKey(other, entry) && (|kept| == 32 ==> other != kept[0]) ==>
            other in stored)
  {
    var kept := Unexpired(results, now);
    UnexpiredSurvive(results, now);
    var i := Lookup(kept, entry.readEpoch, entry.key);
    if i >= 0 { LookupLast(kept, entry, i); }
    if other in kept && !SameKey(other, entry) {
      var k :| 0 <= k < |kept| && kept[k] == other;
      assert (if i >= 0 then kept[i := entry] else kept + [entry])[k] == other;
    }
  }

  // What one delivery leaves its owner with.
  function Answered(h: Hub, j: nat, s: nat, client: Client, value: Option<nat>, now: int): Client
    requires j in h.jobs
  {
    client.(readJobs := client.readJobs - {j},
            results := if value.Some? && MayCache(h, s) && h.subscribers[s].job == j
                       then Store(client.results, EntryFor(h, j, client.readEpoch, value.value, now), now)
                       else client.results)
  }

  lemma OthersAsBefore(h: Hub, j: nat, done: set<nat>, s: nat, d: nat)
    requires j in h.jobs && s in h.subscribers && h.subscribers[s].owner != d
    ensures Owns(h.subscribers, d, done + {s}) <==> Owns(h.subscribers, d, done)
    ensures (exists t | t in done + {s} :: MayCacheFor(h, t, j, d)) <==>
            (exists t | t in done :: MayCacheFor(h, t, j, d))
  {}

  lemma CachingOwns(h: Hub, s: nat, j: nat, c: nat, some: set<nat>)
    requires j in h.jobs && s in some && MayCacheFor(h, s, j, c)
    ensures Owns(h.subscribers, c, some) && h.jobs[j].key.Some?
  {}

  lemma OwnerAnswered(h: Hub, j: nat, done: set<nat>, s: nat, value: Option<nat>, now: int)
    requires j in h.jobs && s in h.subscribers && h.subscribers[s].owner in h.clients && h.subscribers[s].job == j
    requires |h.clients[h.subscribers[s].owner].results| <= MAX_CACHED_RESULTS
    ensures var c := h.subscribers[s].owner;
            DeliverAll(h, j, done + {s}, value, now)[c] ==
            Answered(h, j, s, DeliverAll(h, j, done, value, now)[c], value, now)
  {
    hide Store, MayCache;
    var c := h.subscribers[s].owner;
    var client := h.clients[c];
    assert s in done + {s};
    if t :| t in done && MayCacheFor(h, t, j, c) {
      assert t in done + {s};
      CachingOwns(h, t, j, c, done);
      if value.Some? {
        StoreTwice(client.results, EntryFor(h, j, client.readEpoch, value.value, now), now);
      }
    } else {
      assert MayCacheFor(h, s, j, c) <==> exists t | t in done + {s} :: MayCacheFor(h, t, j, c);
    }
  }

  lemma NextAnswered(h: Hub, j: nat, done: set<nat>, s: nat, value: Option<nat>, now: int)
    requires j in h.jobs && s in h.subscribers && h.subscribers[s].owner in h.clients && h.subscribers[s].job == j
    requires |h.clients[h.subscribers[s].owner].results| <= MAX_CACHED_RESULTS
    ensures var c := h.subscribers[s].owner;
            var before := DeliverAll(h, j, done, value, now);
            DeliverAll(h, j, done + {s}, value, now) == before[c := Answered(h, j, s, before[c], value, now)]
  {
    hide Answered, MayCache, MayCacheFor;
    var c := h.subscribers[s].owner;
    OwnerAnswered(h, j, done, s, value, now);
    forall d | d in h.clients && d != c
      ensures DeliverAll(h, j, done + {s}, value, now)[d] == DeliverAll(h, j, done, value, now)[d]
    {
      OthersAsBefore(h, j, done, s, d);
    }
  }

  // ---- The hub itself ----

  lemma SettlingOneKeepsOwner(subscribers: map<nat, Subscriber>, c: nat, some: set<nat>, s: nat)
    requires s in subscribers
    ensures Owns(subscribers[s := subscribers[s].(settled := subscribers[s].settled + 1)], c, some)
       <==> Owns(subscribers, c, some)
  {}

  lemma CancelKeepsClients(h: Hub, c: nat)
    requires c in h.clients
    ensures CancelOwn(h, c).clients.Keys == h.clients.Keys && CancelOwn(h, c).step == h.step
  {}

  method Prune(results: seq<Entry>, now: int) returns (kept: seq<Entry>)
    ensures kept == Unexpired(results, now)
  {
    kept := [];
    for i := 0 to |results|
      invariant kept == Unexpired(results[..i], now)
    {
      assert results[..i + 1][..i] == results[..i];
      if results[i].expiresAt >= now {
        kept := kept + [results[i]];
      }
    }
    assert results[..|results|] == results;
  }

  // What a delivery relies on, which the invariant keeps.
  ghost predicate Deliverable(h: Hub, j: nat) {
    && j in h.jobs
    && (forall k | k in h.shared && h.shared[k] == j :: h.jobs[j].key == Some(k))
    && (forall s | s in h.jobs[j].subscribers ::
          s in h.subscribers && h.subscribers[s].job == j && h.subscribers[s].owner in h.clients)
    && (forall c | c in h.clients :: |h.clients[c].results| <= MAX_CACHED_RESULTS)
  }

  lemma InvIsDeliverable(h: Hub, j: nat)
    requires Inv(h, h.step) && j in h.jobs
    ensures Deliverable(h, j)
  {}

  lemma DeliveryStarts(h: Hub, j: nat, value: Option<nat>, now: int)
    requires Deliverable(h, j)
    ensures j in h.jobs && DeliverAll(h, j, {}, value, now) == h.clients
    ensures SettleAll(h.subscribers, {}) == h.subscribers
  {}

  lemma DeliveryUnshares(h: Hub, j: nat, value: Option<nat>, now: int)
    requires Deliverable(h, j)
    ensures var g := h.(shared := Unshare(h.shared, j));
            Deliverable(g, j) &&
            DeliverAll(g, j, h.jobs[j].subscribers, value, now) == DeliverAll(h, j, h.jobs[j].subscribers, value, now)
    ensures Unshare(h.shared, j) ==
            if h.jobs[j].key.Some? && h.jobs[j].key.value in h.shared && h.shared[h.jobs[j].key.value] == j
            then h.shared - {h.jobs[j].key.value} else h.shared
  {}

  lemma DeliveryMoves(h: Hub, j: nat, done: set<nat>, s: nat, value: Option<nat>, now: int)
    requires Deliverable(h, j) && s in h.jobs[j].subscribers - done
    ensures var g := h.(clients := DeliverAll(h, j, done, value, now), subscribers := SettleAll(h.subscribers, done));
            && s in g.subscribers && g.subscribers[s].owner in g.clients && g.subscribers[s].job == j
            && var c := g.subscribers[s].owner;
               && DeliverAll(h, j, done + {s}, value, now) ==
                  g.clients[c := Answered(g, j, s, g.clients[c], value, now)]
               && SettleAll(h.subscribers, done + {s}) ==
                  g.subscribers[s := g.subscribers[s].(settled := g.subscribers[s].settled + 1)]
  {
    NextAnswered(h, j, done, s, value, now);
  }

  lemma LeavingIsAStep(h: Hub, s: nat)
    requires Inv(h, h.step) && s in h.subscribers && h.subscribers[s].settled == 0
    ensures Waiting(h, s) && LeftBy(h, s) == Effect(h, Event.LeaveRead(s))
  {
    hide LeftBy, Leave, JobsOk, SharedOk, OwnersOk, EpochsOk, ResultsOk, OperationsOk;
    InvGrows(h, h.step);
    PendingWaits(h, s);
    LeftByIsLeave(h, s);
  }

  lemma InvKnowsOperations(h: Hub, operation: nat)
    requires Inv(h, h.step) && operation in h.operations
    ensures h.operations[operation].client in h.clients
  {}

  class ReadHub {
    var clients: map<nat, Client>
    var jobs: map<nat, Job>
    var subscribers: map<nat, Subscriber>
    var shared: map<ShareKey, nat>
    var epochs: map<nat, nat>
    var operations: map<nat, Operation>
    var nextName: nat
    ghost var fences: map<nat, nat>

    ghost function View(): Hub
      reads this
    {
      Hub(clients, jobs, subscribers, shared, epochs, operations, fences, nextName)
    }

    ghost predicate Valid()
      reads this
    {
      Inv(View(), nextName)
    }

    constructor ()
      ensures Valid() && View() == EMPTY_HUB
    {
      clients, jobs, subscribers, shared, epochs, operations := map[], map[], map[], map[], map[], map[];
      nextName, fences := 0, map[];
    }

    // ---- Pieces of an event: they leave the next name as it is ----

    // The last subscriber to leave abandons the job, which then never starts.
    method Depart(s: nat)
      requires Waiting(View(), s)
      modifies this
      ensures View() == LeftBy(old(View()), s)
    {
      var subscriber := subscribers[s];
      var j, owner := subscriber.job, subscriber.owner;
      var job := jobs[j].(subscribers := jobs[j].subscribers - {s});
      assert s in jobs[j].subscribers * {s};
      subscribers := subscribers[s := subscriber.(settled := subscriber.settled + 1)];
      SettlingOneKeepsOwner(old(subscribers), owner, job.subscribers, s);
      if !Owns(subscribers, owner, job.subscribers) {
        clients := clients[owner := clients[owner].(readJobs := clients[owner].readJobs - {j})];
      }
      if job.subscribers == {} && !job.finished {
        if job.key.Some? && job.key.value in shared && shared[job.key.value] == j {
          shared := shared - {job.key.value};
        }
        job := job.(aborted := true);
        if !job.started {
          job := job.(queued := false, finished := true);
        }
      }
      jobs := jobs[j := job];
    }

    // Reject every subscriber of client `c`, job by job.
    method LeaveOwnReads(c: nat)
      requires Inv(View(), nextName + 1) && c in clients
      modifies this
      ensures View() == Leave(old(View()), c, PendingOf(old(View()), c))
    {
      hide Inv, Leave, LeftBy, Waiting, Visited, PendingOf;
      ghost var h := View();
      ghost var gone := {};
      var todo := clients[c].readJobs;
      VisitStarts(h, c);
      NobodyLeaving(h, c);
      while todo != {}
        invariant todo <= h.clients[c].readJobs
        invariant gone == Visited(h, c, todo, {})
        invariant View() == Leave(h, c, gone)
      {
        var j :| j in todo;
        ReadJobsAreJobs(h, c, j);
        VisitEnters(h, c, gone, todo, j);
        todo := todo - {j};
        var waiting := jobs[j].subscribers;
        while waiting != {}
          invariant waiting <= h.jobs[j].subscribers
          invariant gone == Visited(h, c, todo, waiting)
          invariant View() == Leave(h, c, gone)
        {
          var s :| s in waiting;
          VisitMoves(h, c, gone, todo, j, waiting, s);
          if subscribers[s].owner == c {
            Depart(s);
            gone := gone + {s};
          }
          waiting := waiting - {s};
        }
      }
      VisitEnds(h, c);
    }

    // A write invalidates reuse; only a change of repository rejects those already waiting.
    method InvalidateReadResults(c: nat, cancelExisting: bool)
      requires c in clients && (cancelExisting ==> Inv(View(), nextName + 1))
      modifies this
      ensures View() == if cancelExisting then CancelOwn(old(View()), c) else BumpReadEpoch(old(View()), c)
    {
      hide Inv, Leave, PendingOf;
      ghost var h := View();
      clients := clients[c := clients[c].(readEpoch := clients[c].readEpoch + 1, results := [])];
      if cancelExisting {
        BumpReadEpochKeepsInv(h, c, nextName + 1);
        LeaveOwnReads(c);
      }
    }

    method BumpEpoch(repository: nat)
      modifies this`epochs, this`fences
      ensures View() == BumpMutationEpoch(old(View()), repository)
    {
      epochs := epochs[repository := At(epochs, repository) + 1];
      fences := fences[repository := nextName + 1];
    }

    // Every reuse of what was read before ends, for this client and for all others on the checkout.
    method EndReuse(c: nat)
      requires c in clients
      modifies this
      ensures View() == ReadHubs.InvalidateReads(old(View()), c)
    {
      BumpEpoch(clients[c].repository);
      InvalidateReadResults(c, false);
    }

    method MoveClient(c: nat, repository: nat)
      requires Valid() && c in clients
      modifies this
      ensures View() == ReadHubs.UseRepository(old(View()), c, repository)
    {
      hide Inv, CancelOwn;
      InvGrows(View(), nextName);
      InvalidateReadsKeepsInv(View(), c, nextName + 1);
      ghost var h := View();
      CancelKeepsClients(ReadHubs.InvalidateReads(h, c), c);
      if repository != clients[c].repository {
        EndReuse(c);
        InvalidateReadResults(c, true);
        clients := clients[c := clients[c].(repository := repository)];
      }
    }

    method CloseClient(c: nat)
      requires Valid() && c in clients
      modifies this
      ensures View() == CancelOwn(ReadHubs.InvalidateReads(old(View()), c), c)
    {
      hide Inv, CancelOwn;
      InvGrows(View(), nextName);
      InvalidateReadsKeepsInv(View(), c, nextName + 1);
      CancelKeepsClients(ReadHubs.InvalidateReads(View(), c), c);
      EndReuse(c);
      InvalidateReadResults(c, true);
    }

    // A write fences the checkout before it is launched, and again when it settles.
    method OpenMutation(c: nat) returns (operation: nat)
      requires c in clients
      modifies this
      ensures View() == ReadHubs.BeginMutation(old(View()), c) && operation == old(nextName)
    {
      InvalidateReadResults(c, false);
      EndReuse(c);
      BumpEpoch(clients[c].repository);
      operation := nextName;
      operations := operations[operation := Operation(c, clients[c].repository)];
    }

    method CloseMutation(operation: nat)
      requires operation in operations && operations[operation].client in clients
      modifies this
      ensures View() == ReadHubs.SettleMutation(old(View()), operation)
    {
      var settled := operations[operation];
      operations := operations - {operation};
      BumpEpoch(settled.repository);
      InvalidateReadResults(settled.client, false);
    }

    method WatchJob(c: nat, j: nat)
      requires c in clients && j in jobs
      modifies this
      ensures View() == Subscribe(old(View()), c, j, old(jobs[j]))
    {
      clients := clients[c := clients[c].(readJobs := clients[c].readJobs + {j})];
      var subscriber := Subscriber(c, j, clients[c].readEpoch, At(epochs, clients[c].repository), 0);
      subscribers := subscribers[nextName := subscriber];
      jobs := jobs[j := jobs[j].(subscribers := jobs[j].subscribers + {nextName})];
    }

    // The client's own answer, if it holds one; an entry found expired is dropped.
    method CachedAnswer(c: nat, key: Option<ShareKey>, now: int) returns (i: int)
      requires c in clients
      modifies this`clients
      ensures i == (if key.None? then -1 else Lookup(old(clients)[c].results, old(clients)[c].readEpoch, key.value))
      ensures View() ==
        if 0 <= i < |old(clients)[c].results| && old(clients)[c].results[i].expiresAt >= now then old(View())
        else DropStale(old(View()), c, key)
    {
      i := -1;
      var client := clients[c];
      if key.Some? {
        i := Lookup(client.results, client.readEpoch, key.value);
        if i >= 0 && client.results[i].expiresAt < now {
          client := client.(results := client.results[..i] + client.results[i + 1..]);
        }
      }
      clients := clients[c := client];
    }

    // The job already reading `key`, or a new one.
    method FindJob(repository: nat, key: Option<ShareKey>) returns (j: nat, isNew: bool)
      requires nextName !in jobs && forall k | k in shared :: shared[k] in jobs
      modifies this`jobs, this`shared
      ensures isNew <==> key.None? || key.value !in old(shared)
      ensures j == (if isNew then old(nextName) else old(shared)[key.value])
      ensures jobs == old(jobs)[j := JobFor(old(jobs), operations, repository, key, j)]
      ensures shared == Share(old(shared), key, j)
    {
      hide Mutating;
      isNew := key.None? || key.value !in shared;
      if isNew {
        j := nextName;
        jobs := jobs[j := Job(key, repository, {}, !Mutating(operations, repository), false, false, false)];
        if key.Some? {
          shared := shared[key.value := j];
        }
      } else {
        j := shared[key.value];
      }
    }

    method JoinJob(c: nat, key: Option<ShareKey>) returns (j: nat, isNew: bool)
      requires c in clients && nextName !in jobs && forall k | k in shared :: shared[k] in jobs
      modifies this
      ensures isNew <==> key.None? || key.value !in old(shared)
      ensures j == (if isNew then old(nextName) else old(shared)[key.value])
      ensures View() == Joining(old(View()), c, key, j)
    {
      hide Mutating, JobFor, Share;
      j, isNew := FindJob(clients[c].repository, key);
      WatchJob(c, j);
    }

    // Answer from the client's cache, or wait on the job that is reading the same thing, or start one.
    method FindOrRead(c: nat, request: nat, cacheable: bool, aborted: bool, now: int) returns (outcome: Outcome)
      requires Ready(View()) && c in clients
      modifies this
      ensures View() == ReadHubs.RequestRead(old(View()), c, request, cacheable, aborted, now)
      ensures outcome == Answer(old(View()), c, request, cacheable, aborted, now)
    {
      hide Lookup, Joining;
      var repository, results := clients[c].repository, clients[c].results;
      var key := if cacheable then Some(ShareKey(repository, At(epochs, repository), request)) else None;
      outcome := Refused;
      if !aborted {
        var i := CachedAnswer(c, key, now);
        if i >= 0 && results[i].expiresAt >= now {
          outcome := Hit(results[i].value, results[i].requestedAt, results[i].completedAt);
        } else {
          var j, isNew := JoinJob(c, key);
          outcome := if isNew then Fresh(j) else Joined(j);
        }
      }
    }

    method QueueJob(j: nat)
      requires j in jobs
      modifies this
      ensures View() == ReadHubs.EnqueueJob(old(View()), j)
    {
      var job := jobs[j];
      if !job.started && !job.finished && job.subscribers != {} {
        job := job.(queued := true);
      }
      jobs := jobs[j := job];
    }

    // The pool runs the job's ticket: `launched` says that the read begins.
    method RunJob(j: nat) returns (launched: bool)
      requires j in jobs && jobs[j].queued && !jobs[j].started
      modifies this
      ensures View() == ReadHubs.StartJob(old(View()), j)
      ensures j in jobs && (launched <==> jobs[j].started)
    {
      hide Mutating;
      var job := jobs[j].(queued := false);
      launched := job.subscribers != {} && !job.finished && !Mutating(operations, job.repository);
      jobs := jobs[j := job.(started := launched)];
    }

    // Resolve or reject one subscriber; what it resolves with stays in its owner's cache for a while
    // unless something was invalidated since it asked.
    method AnswerSubscriber(j: nat, s: nat, value: Option<nat>, now: int)
      requires j in jobs && s in subscribers && subscribers[s].owner in clients && subscribers[s].job == j
      modifies this`clients, this`subscribers
      ensures subscribers == old(subscribers)[s := old(subscribers)[s].(settled := old(subscribers)[s].settled + 1)]
      ensures clients == old(clients)[subscribers[s].owner :=
                Answered(old(View()), j, s, old(clients)[subscribers[s].owner], value, now)]
    {
      hide Unexpired, Lookup;
      var subscriber, key := subscribers[s], jobs[j].key;
      var client := clients[subscriber.owner];
      client := client.(readJobs := client.readJobs - {j});
      if value.Some? && key.Some? && subscriber.readEpoch == client.readEpoch
         && subscriber.mutationEpoch == At(epochs, jobs[j].repository) {
        var kept := Prune(client.results, now);
        var entry := Entry(client.readEpoch, key.value, now + READ_RESULT_CACHE_TTL_MS, value.value, j, nextName);
        var i := Lookup(kept, entry.readEpoch, entry.key);
        kept := if i >= 0 then kept[i := entry] else kept + [entry];
        if |kept| > MAX_CACHED_RESULTS {
          kept := kept[1..];
        }
        client := client.(results := kept);
      }
      clients := clients[subscriber.owner := client];
      subscribers := subscribers[s := subscriber.(settled := subscriber.settled + 1)];
    }

    method AnswerSubscribers(j: nat, value: Option<nat>, now: int)
      requires Deliverable(View(), j)
      modifies this`clients, this`subscribers
      ensures clients == DeliverAll(old(View()), j, jobs[j].subscribers, value, now)
      ensures subscribers == SettleAll(old(subscribers), jobs[j].subscribers)
    {
      hide Answered, SettleAll, Deliverable, DeliverAll;
      ghost var h := View();
      DeliveryStarts(h, j, value, now);
      var waiting := jobs[j].subscribers;
      ghost var done := {};
      while waiting != {}
        invariant waiting <= jobs[j].subscribers && done == jobs[j].subscribers - waiting
        invariant subscribers == SettleAll(h.subscribers, done)
        invariant clients == DeliverAll(h, j, done, value, now)
      {
        var s :| s in waiting;
        DeliveryMoves(h, j, done, s, value, now);
        AnswerSubscriber(j, s, value, now);
        waiting, done := waiting - {s}, done + {s};
      }
      assert done == jobs[j].subscribers;
    }

    // The read ended: everyone who waited is answered, once, whichever client they came through.
    method EndRead(j: nat, value: Option<nat>, now: int)
      requires Deliverable(View(), j)
      modifies this
      ensures View() == FinishJob(old(View()), j, value, now)
    {
      hide SettleAll, Unshare, DeliverAll;
      if !jobs[j].finished {
        DeliveryUnshares(View(), j, value, now);
        var key := jobs[j].key;
        if key.Some? && key.value in shared && shared[key.value] == j {
          shared := shared - {key.value};
        }
        AnswerSubscribers(j, value, now);
        jobs := jobs[j := jobs[j].(finished := true, subscribers := {})];
      }
    }

    // ---- The hub as its callers see it: one event each ----

    // Ends an event: the next one gets the next name.
    method Tick(ghost h: Hub, ghost e: Event)
      requires Inv(h, h.step) && View() == Effect(h, e)
      modifies this`nextName
      ensures Valid() && View() == Step(h, e)
    {
      hide Effect, Inv;
      EffectKeepsStep(h, e);
      StepKeepsInv(h, e);
      nextName := nextName + 1;
    }

    method NewClient(c: nat, repository: nat)
      requires Valid() && c !in clients
      modifies this
      ensures Valid() && View() == Step(old(View()), Event.NewClient(c, repository))
    {
      hide Inv;
      ghost var h := View();
      clients := clients[c := Client(repository, 0, [], {})];
      Tick(h, Event.NewClient(c, repository));
    }

    method RequestRead(c: nat, request: nat, cacheable: bool, aborted: bool, now: int) returns (outcome: Outcome)
      requires Valid() && c in clients
      modifies this
      ensures Valid() && View() == Step(old(View()), Request(c, request, cacheable, aborted, now))
      ensures outcome == Answer(old(View()), c, request, cacheable, aborted, now)
      ensures outcome.Fresh? ==>
                && outcome.job == old(nextName) && outcome.job in jobs && jobs[outcome.job].subscribers == {outcome.job}
                && (jobs[outcome.job].queued <==>
                      forall op | op in old(operations) ::
                        old(operations)[op].repository != old(clients)[c].repository)
    {
      hide Inv, Ready, ReadHubs.RequestRead;
      ghost var h := View();
      InvIsReady(h);
      AnswerShape(h, c, request, cacheable, aborted, now);
      ReadWaits.RequestWaits(h, c, request, cacheable, aborted, now);
      outcome := FindOrRead(c, request, cacheable, aborted, now);
      Tick(h, Request(c, request, cacheable, aborted, now));
    }

    method BeginMutation(c: nat) returns (operation: nat)
      requires Valid() && c in clients
      modifies this
      ensures Valid() && View() == Step(old(View()), Begin(c)) && operation == old(nextName)
    {
      hide Inv, ReadHubs.BeginMutation;
      ghost var h := View();
      operation := OpenMutation(c);
      Tick(h, Begin(c));
    }

    method SettleMutation(operation: nat)
      requires Valid() && operation in operations
      modifies this
      ensures Valid() && View() == Step(old(View()), Settle(operation))
    {
      hide Inv, ReadHubs.SettleMutation;
      ghost var h := View();
      InvKnowsOperations(h, operation);
      CloseMutation(operation);
      Tick(h, Settle(operation));
    }

    method InvalidateReads(c: nat)
      requires Valid() && c in clients
      modifies this
      ensures Valid() && View() == Step(old(View()), Invalidate(c))
    {
      hide Inv, ReadHubs.InvalidateReads;
      ghost var h := View();
      EndReuse(c);
      Tick(h, Invalidate(c));
    }

    method UseRepository(c: nat, repository: nat)
      requires Valid() && c in clients
      modifies this
      ensures Valid() && View() == Step(old(View()), Rebind(c, repository))
    {
      hide Inv, ReadHubs.UseRepository;
      ghost var h := View();
      MoveClient(c, repository);
      Tick(h, Rebind(c, repository));
    }

    method Dispose(c: nat)
      requires Valid() && c in clients
      modifies this
      ensures Valid() && View() == Step(old(View()), Event.Dispose(c))
    {
      hide Inv, ReadHubs.InvalidateReads, CancelOwn;
      ghost var h := View();
      CloseClient(c);
      Tick(h, Event.Dispose(c));
    }

    // A caller gives up a read it is still waiting for.
    method LeaveRead(s: nat)
      requires Valid() && s in subscribers && subscribers[s].settled == 0
      modifies this
      ensures Valid() && View() == Step(old(View()), Event.LeaveRead(s))
    {
      hide Inv, LeftBy, Effect, Waiting;
      ghost var h := View();
      LeavingIsAStep(h, s);
      Depart(s);
      Tick(h, Event.LeaveRead(s));
    }

    // The wait for mutations of the checkout is over.
    method EnqueueJob(j: nat)
      requires Valid() && j in jobs
      modifies this
      ensures Valid() && View() == Step(old(View()), MutationsCleared(j))
    {
      hide Inv, ReadHubs.EnqueueJob;
      ghost var h := View();
      QueueJob(j);
      Tick(h, MutationsCleared(j));
    }

    // The pool runs the job's ticket: `launched` says that the read begins.
    method StartJob(j: nat) returns (launched: bool)
      requires Valid() && j in jobs && jobs[j].queued && !jobs[j].started
      modifies this
      ensures Valid() && View() == Step(old(View()), Slot(j)) && j in jobs && (launched <==> jobs[j].started)
    {
      hide Inv, ReadHubs.StartJob;
      ghost var h := View();
      launched := RunJob(j);
      Tick(h, Slot(j));
    }

    method FinishRead(j: nat, value: Option<nat>, now: int)
      requires Valid() && j in jobs && jobs[j].started
      modifies this
      ensures Valid() && View() == Step(old(View()), Complete(j, value, now))
    {
      hide Inv, Deliverable, FinishJob;
      ghost var h := View();
      InvIsDeliverable(h, j);
      EndRead(j, value, now);
      Tick(h, Complete(j, value, now));
    }
  }
}
