// Shared reads, result caches and the mutation fence of apps/vscode/src/cli/client.ts: several
// clients coalesce equal reads of one checkout, and every write of that checkout, through any
// client, makes earlier answers unusable.
//
// One event is one stretch of code between two awaits. A job, subscriber or operation is named by
// the index of the event that created it, so a job's name is also when its read was requested.
module ReadHubs {
  import opened Wrappers

  const READ_RESULT_CACHE_TTL_MS: int := 250
  const MAX_CACHED_RESULTS: nat := 32

  // `request` stands for the rest of the source's key: executable, CLI, environment digest, warm
  // reads flag and arguments.
  datatype ShareKey = ShareKey(repository: nat, mutationEpoch: nat, request: nat)

  // The cache key is (readEpoch, key). `requestedAt` and `completedAt` record where the value came from.
  datatype Entry = Entry(readEpoch: nat, key: ShareKey, expiresAt: int, value: nat,
                         requestedAt: nat, completedAt: nat)

  datatype Client = Client(repository: nat, readEpoch: nat, results: seq<Entry>, readJobs: set<nat>)

  datatype Job = Job(key: Option<ShareKey>, repository: nat, subscribers: set<nat>,
                     queued: bool, started: bool, finished: bool, aborted: bool)

  // `settled` counts how often the subscriber's promise was resolved or rejected.
  datatype Subscriber = Subscriber(owner: nat, job: nat, readEpoch: nat, mutationEpoch: nat, settled: nat)

  datatype Operation = Operation(client: nat, repository: nat)

  // `fences` records, per repository, one more than the index of the last event that began or ended
  // a mutation or invalidated its reads; `step` is the index of the next event. Both are history.
  datatype Hub = Hub(clients: map<nat, Client>, jobs: map<nat, Job>, subscribers: map<nat, Subscriber>,
                     shared: map<ShareKey, nat>, epochs: map<nat, nat>,
                     operations: map<nat, Operation>, fences: map<nat, nat>, step: nat)

  const EMPTY_HUB := Hub(map[], map[], map[], map[], map[], map[], map[], 0)

  // A repository nobody wrote has epoch 0, and no fence.
  function At(counters: map<nat, nat>, repository: nat): nat {
    if repository in counters then counters[repository] else 0
  }

  predicate Mutating(operations: map<nat, Operation>, repository: nat) {
    exists op | op in operations :: operations[op].repository == repository
  }

  predicate Live(job: Job) {
    !job.finished && !job.aborted
  }

  // ---- Invalidation ----

  function BumpReadEpoch(h: Hub, c: nat): Hub
    requires c in h.clients
  {
    h.(clients := h.clients[c := h.clients[c].(readEpoch := h.clients[c].readEpoch + 1, results := [])])
  }

  function BumpMutationEpoch(h: Hub, repository: nat): Hub {
    h.(epochs := h.epochs[repository := At(h.epochs, repository) + 1], fences := h.fences[repository := h.step + 1])
  }

  function InvalidateReads(h: Hub, c: nat): Hub
    requires c in h.clients
  {
    BumpReadEpoch(BumpMutationEpoch(h, h.clients[c].repository), c)
  }

  // ---- Leaving a shared read ----

  predicate Abandons(job: Job, leaving: set<nat>) {
    job.subscribers * leaving != {} && job.subscribers - leaving == {} && !job.finished
  }

  function Depart(job: Job, leaving: set<nat>): Job {
    var rest := job.(subscribers := job.subscribers - leaving);
    if Abandons(job, leaving)
    then rest.(aborted := true, finished := !job.started, queued := job.queued && job.started)
    else rest
  }

  function DepartAll(jobs: map<nat, Job>, leaving: set<nat>): map<nat, Job> {
    map j | j in jobs :: Depart(jobs[j], leaving)
  }

  function SettleAll(subscribers: map<nat, Subscriber>, leaving: set<nat>): map<nat, Subscriber> {
    map s | s in subscribers ::
      if s in leaving then subscribers[s].(settled := subscribers[s].settled + 1) else subscribers[s]
  }

  function StillShared(shared: map<ShareKey, nat>, jobs: map<nat, Job>, leaving: set<nat>): map<ShareKey, nat> {
    map k | k in shared && (shared[k] in jobs ==> !Abandons(jobs[shared[k]], leaving)) :: shared[k]
  }

  function StillRead(readJobs: set<nat>, jobs: map<nat, Job>, subscribers: map<nat, Subscriber>, c: nat): set<nat> {
    set j | j in readJobs && (j in jobs ==> Owns(subscribers, c, jobs[j].subscribers))
  }

  // The pending subscribers `leaving`, all owned by client `c`, are rejected.
  function Leave(h: Hub, c: nat, leaving: set<nat>): Hub
    requires c in h.clients
  {
    var jobs := DepartAll(h.jobs, leaving);
    h.(jobs := jobs,
       subscribers := SettleAll(h.subscribers, leaving),
       shared := StillShared(h.shared, h.jobs, leaving),
       clients := h.clients[c := h.clients[c].(readJobs :=
         StillRead(h.clients[c].readJobs, jobs, h.subscribers, c))])
  }

  predicate Owns(subscribers: map<nat, Subscriber>, c: nat, some: set<nat>) {
    exists s | s in some :: s in subscribers && subscribers[s].owner == c
  }

  function PendingOf(h: Hub, c: nat): set<nat> {
    set s | s in h.subscribers && h.subscribers[s].owner == c && h.subscribers[s].settled == 0
  }

  function CancelOwn(h: Hub, c: nat): Hub
    requires c in h.clients
  {
    var bumped := BumpReadEpoch(h, c);
    Leave(bumped, c, PendingOf(bumped, c))
  }

  function Rebound(h: Hub, c: nat, repository: nat): Hub
    requires c in h.clients
  {
    h.(clients := h.clients[c := h.clients[c].(repository := repository)])
  }

  function UseRepository(h: Hub, c: nat, repository: nat): Hub
    requires c in h.clients
  {
    if repository == h.clients[c].repository then h
    else Rebound(CancelOwn(InvalidateReads(h, c), c), c, repository)
  }

  // ---- Mutations ----

  function BeginMutation(h: Hub, c: nat): Hub
    requires c in h.clients
  {
    var repository := h.clients[c].repository;
    var g := BumpMutationEpoch(InvalidateReads(BumpReadEpoch(h, c), c), repository);
    g.(operations := g.operations[h.step := Operation(c, repository)])
  }

  function SettleMutation(h: Hub, op: nat): Hub
    requires op in h.operations && h.operations[op].client in h.clients
  {
    var g := BumpMutationEpoch(h, h.operations[op].repository);
    BumpReadEpoch(g.(operations := g.operations - {op}), h.operations[op].client)
  }

  // ---- Requesting a read ----

  datatype Outcome =
    | Refused
    | Hit(value: nat, requestedAt: nat, completedAt: nat)
    | Joined(job: nat)
    | Fresh(job: nat)

  function Lookup(results: seq<Entry>, readEpoch: nat, key: ShareKey): (index: int)
    ensures -1 <= index < |results|
    ensures index >= 0 ==> results[index].readEpoch == readEpoch && results[index].key == key
  {
    if results == [] then -1
    else if results[|results| - 1].readEpoch == readEpoch && results[|results| - 1].key == key then |results| - 1
    else Lookup(results[..|results| - 1], readEpoch, key)
  }

  function KeyOf(h: Hub, c: nat, request: nat, cacheable: bool): Option<ShareKey>
    requires c in h.clients
  {
    var repository := h.clients[c].repository;
    if cacheable then Some(ShareKey(repository, At(h.epochs, repository), request)) else None
  }

  function Answer(h: Hub, c: nat, request: nat, cacheable: bool, aborted: bool, now: int): Outcome
    requires c in h.clients
  {
    if aborted then Refused else
      match KeyOf(h, c, request, cacheable)
      case None => Fresh(h.step)
      case Some(key) =>
        var client := h.clients[c];
        var i := Lookup(client.results, client.readEpoch, key);
        if i >= 0 && client.results[i].expiresAt >= now
        then Hit(client.results[i].value, client.results[i].requestedAt, client.results[i].completedAt)
        else if key in h.shared then Joined(h.shared[key])
        else Fresh(h.step)
  }

  // An entry found expired is dropped before the read is joined or started.
  function WithoutStale(results: seq<Entry>, readEpoch: nat, key: Option<ShareKey>): seq<Entry> {
    var i := if key.None? then -1 else Lookup(results, readEpoch, key.value);
    if i < 0 then results else results[..i] + results[i + 1..]
  }

  function DropStale(h: Hub, c: nat, key: Option<ShareKey>): Hub
    requires c in h.clients
  {
    var client := h.clients[c];
    h.(clients := h.clients[c := client.(results := WithoutStale(client.results, client.readEpoch, key))])
  }

  function Watching(clients: map<nat, Client>, c: nat, j: nat): map<nat, Client>
    requires c in clients
  {
    clients[c := clients[c].(readJobs := clients[c].readJobs + {j})]
  }

  // Client `c` waits on job `j`, whose value so far is `job`.
  function Subscribe(h: Hub, c: nat, j: nat, job: Job): Hub
    requires c in h.clients
  {
    h.(jobs := h.jobs[j := job.(subscribers := job.subscribers + {h.step})],
       subscribers := h.subscribers[h.step :=
         Subscriber(c, j, h.clients[c].readEpoch, At(h.epochs, h.clients[c].repository), 0)],
       clients := Watching(h.clients, c, j))
  }

  function Share(shared: map<ShareKey, nat>, key: Option<ShareKey>, j: nat): map<ShareKey, nat> {
    if key.Some? then shared[key.value := j] else shared
  }

  // The job a request waits on: the shared one, or a new one that is queued unless a mutation of
  // its checkout is in flight.
  function JobFor(jobs: map<nat, Job>, operations: map<nat, Operation>, repository: nat,
                  key: Option<ShareKey>, j: nat): Job {
    if j in jobs then jobs[j]
    else Job(key, repository, {}, !Mutating(operations, repository), false, false, false)
  }

  function Joining(h: Hub, c: nat, key: Option<ShareKey>, j: nat): Hub
    requires c in h.clients
  {
    var job := JobFor(h.jobs, h.operations, h.clients[c].repository, key, j);
    Subscribe(h, c, j, job).(shared := Share(h.shared, key, j))
  }

  function RequestRead(h: Hub, c: nat, request: nat, cacheable: bool, aborted: bool, now: int): Hub
    requires c in h.clients
  {
    var key := KeyOf(h, c, request, cacheable);
    var answer := Answer(h, c, request, cacheable, aborted, now);
    if answer.Refused? || answer.Hit? then h
    else Joining(DropStale(h, c, key), c, key, answer.job)
  }

  // ---- Running and finishing ----

  function Enqueued(job: Job): Job {
    if !job.started && !job.finished && job.subscribers != {} then job.(queued := true) else job
  }

  function Started(job: Job, mutating: bool): Job {
    if !job.queued || job.started then job
    else if job.subscribers == {} || job.finished || mutating then job.(queued := false)
    else job.(queued := false, started := true)
  }

  // The wait for in-flight mutations ended: take a place in the pool.
  function EnqueueJob(h: Hub, j: nat): Hub {
    if j in h.jobs then h.(jobs := h.jobs[j := Enqueued(h.jobs[j])]) else h
  }

  // The pool runs the ticket. A read that meets a mutation gives the slot back and waits outside.
  function StartJob(h: Hub, j: nat): Hub {
    if j in h.jobs
    then h.(jobs := h.jobs[j := Started(h.jobs[j], Mutating(h.operations, h.jobs[j].repository))]) else h
  }

  function Unexpired(results: seq<Entry>, now: int): seq<Entry> {
    if results == [] then []
    else Unexpired(results[..|results| - 1], now) +
         (if results[|results| - 1].expiresAt < now then [] else [results[|results| - 1]])
  }

  // Store an answer: expired entries go, an equal key keeps its place, and the oldest entry makes
  // room when there are more than 32.
  function Store(results: seq<Entry>, entry: Entry, now: int): seq<Entry> {
    var kept := Unexpired(results, now);
    var i := Lookup(kept, entry.readEpoch, entry.key);
    var stored := if i >= 0 then kept[i := entry] else kept + [entry];
    if |stored| > MAX_CACHED_RESULTS then stored[1..] else stored
  }

  // Subscriber `s` of job `j` may leave the answer in its owner's cache: nothing was invalidated
  // since it asked.
  predicate MayCache(h: Hub, s: nat) {
    && s in h.subscribers && h.subscribers[s].owner in h.clients && h.subscribers[s].job in h.jobs
    && var subscriber := h.subscribers[s];
       && h.jobs[subscriber.job].key.Some?
       && subscriber.readEpoch == h.clients[subscriber.owner].readEpoch
       && subscriber.mutationEpoch == At(h.epochs, h.jobs[subscriber.job].repository)
  }

  function EntryFor(h: Hub, j: nat, readEpoch: nat, value: nat, now: int): Entry
    requires j in h.jobs && h.jobs[j].key.Some?
  {
    Entry(readEpoch, h.jobs[j].key.value, now + READ_RESULT_CACHE_TTL_MS, value, j, h.step)
  }

  // What client `c` is left with once the subscribers `some` of job `j` were answered.
  function Delivered(h: Hub, j: nat, some: set<nat>, c: nat, value: Option<nat>, now: int): Client
    requires j in h.jobs && c in h.clients
  {
    var client := h.clients[c];
    client.(readJobs := client.readJobs - {j},
            results := if value.Some? && exists s | s in some :: MayCacheFor(h, s, j, c)
                       then Store(client.results, EntryFor(h, j, client.readEpoch, value.value, now), now)
                       else client.results)
  }

  predicate MayCacheFor(h: Hub, s: nat, j: nat, c: nat) {
    MayCache(h, s) && h.subscribers[s].owner == c && h.subscribers[s].job == j
  }

  function DeliverAll(h: Hub, j: nat, some: set<nat>, value: Option<nat>, now: int): map<nat, Client>
    requires j in h.jobs
  {
    map c | c in h.clients ::
      if Owns(h.subscribers, c, some) then Delivered(h, j, some, c, value, now) else h.clients[c]
  }

  function Unshare(shared: map<ShareKey, nat>, j: nat): map<ShareKey, nat> {
    map k | k in shared && shared[k] != j :: shared[k]
  }

  // `value` is None when the read failed.
  function FinishJob(h: Hub, j: nat, value: Option<nat>, now: int): Hub {
    if j !in h.jobs || h.jobs[j].finished then h else
      h.(jobs := h.jobs[j := h.jobs[j].(finished := true, subscribers := {})],
         shared := Unshare(h.shared, j),
         subscribers := SettleAll(h.subscribers, h.jobs[j].subscribers),
         clients := DeliverAll(h, j, h.jobs[j].subscribers, value, now))
  }

  // ---- The hub as a state machine ----

  datatype Event =
    | NewClient(client: nat, repository: nat)
    | Request(client: nat, request: nat, cacheable: bool, aborted: bool, now: int)
    | Begin(client: nat)
    | Settle(operation: nat)
    | Invalidate(client: nat)
    | Rebind(client: nat, repository: nat)
    | Dispose(client: nat)
    | LeaveRead(subscriber: nat)
    | MutationsCleared(job: nat)
    | Slot(job: nat)
    | Complete(job: nat, value: Option<nat>, now: int)
    | Idle

  function Effect(h: Hub, e: Event): Hub {
    match e
    case NewClient(c, repository) =>
      if c in h.clients then h else h.(clients := h.clients[c := Client(repository, 0, [], {})])
    case Request(c, request, cacheable, aborted, now) =>
      if c in h.clients then RequestRead(h, c, request, cacheable, aborted, now) else h
    case Begin(c) => if c in h.clients then BeginMutation(h, c) else h
    case Settle(op) =>
      if op in h.operations && h.operations[op].client in h.clients then SettleMutation(h, op) else h
    case Invalidate(c) => if c in h.clients then InvalidateReads(h, c) else h
    case Rebind(c, repository) => if c in h.clients then UseRepository(h, c, repository) else h
    case Dispose(c) => if c in h.clients then CancelOwn(InvalidateReads(h, c), c) else h
    case LeaveRead(s) =>
      if s in h.subscribers && h.subscribers[s].settled == 0 && h.subscribers[s].owner in h.clients
      then Leave(h, h.subscribers[s].owner, {s}) else h
    case MutationsCleared(j) => EnqueueJob(h, j)
    case Slot(j) => StartJob(h, j)
    case Complete(j, value, now) =>
      if j in h.jobs && h.jobs[j].started then FinishJob(h, j, value, now) else h
    case Idle => h
  }

  function Step(h: Hub, e: Event): Hub {
    var after := Effect(h, e);
    after.(step := h.step + 1)
  }

  function Run(events: seq<Event>): Hub {
    if events == [] then EMPTY_HUB else Step(Run(events[..|events| - 1]), events[|events| - 1])
  }

  // ---- What every step keeps ----

  // `n` bounds the names given out so far.
  ghost predicate JobsOk(jobs: map<nat, Job>, n: nat) {
    forall j | j in jobs :: JobOk(jobs[j]) && j < n
  }

  ghost predicate JobOk(job: Job) {
    && (Live(job) <==> job.subscribers != {})
    && (job.aborted ==> job.started || job.finished)
    && (job.queued ==> !job.started && Live(job))
    && (job.key.Some? ==> job.key.value.repository == job.repository)
  }

  // The shared map holds exactly the live jobs that have a key, so one per key.
  ghost predicate SharedOk(shared: map<ShareKey, nat>, jobs: map<nat, Job>) {
    && (forall k | k in shared :: shared[k] in jobs && Live(jobs[shared[k]]) && jobs[shared[k]].key == Some(k))
    && (forall j | j in jobs && Live(jobs[j]) && jobs[j].key.Some? ::
          jobs[j].key.value in shared && shared[jobs[j].key.value] == j)
  }

  ghost predicate SubscribersOk(subscribers: map<nat, Subscriber>, jobs: map<nat, Job>, clients: set<nat>, n: nat) {
    && (forall j, s | j in jobs && s in jobs[j].subscribers ::
          s in subscribers && subscribers[s].job == j && subscribers[s].settled == 0)
    && (forall s | s in subscribers :: s < n && SubscriberOk(s, subscribers[s], jobs, clients))
  }

  ghost predicate SubscriberOk(s: nat, subscriber: Subscriber, jobs: map<nat, Job>, clients: set<nat>) {
    && subscriber.settled <= 1
    && subscriber.owner in clients && subscriber.job in jobs
    && (subscriber.settled == 0 ==> s in jobs[subscriber.job].subscribers)
    && (jobs[subscriber.job].key.Some? ==>
          subscriber.mutationEpoch == jobs[subscriber.job].key.value.mutationEpoch)
  }

  ghost predicate OwnersOk(clients: map<nat, Client>, jobs: map<nat, Job>, subscribers: map<nat, Subscriber>) {
    forall c, j | c in clients ::
      j in clients[c].readJobs <==> j in jobs && Owns(subscribers, c, jobs[j].subscribers)
  }

  // A key of the current epoch was made after the last fence of its repository.
  ghost predicate Current(epochs: map<nat, nat>, fences: map<nat, nat>, key: ShareKey, requestedAt: nat) {
    && key.mutationEpoch <= At(epochs, key.repository)
    && (key.mutationEpoch == At(epochs, key.repository) ==> At(fences, key.repository) <= requestedAt)
  }

  ghost predicate EpochsOk(epochs: map<nat, nat>, fences: map<nat, nat>, jobs: map<nat, Job>, n: nat) {
    && (forall r | r in fences :: fences[r] <= n)
    && (forall j | j in jobs && jobs[j].key.Some? :: Current(epochs, fences, jobs[j].key.value, j))
  }

  ghost predicate OperationsOk(operations: map<nat, Operation>, clients: set<nat>, n: nat) {
    forall op | op in operations :: operations[op].client in clients && op < n
  }

  ghost predicate ResultsOk(clients: map<nat, Client>, epochs: map<nat, nat>, fences: map<nat, nat>) {
    forall c | c in clients :: EntriesOk(clients[c].results, clients[c].readEpoch, epochs, fences)
  }

  ghost predicate EntriesOk(results: seq<Entry>, readEpoch: nat, epochs: map<nat, nat>, fences: map<nat, nat>) {
    && |results| <= MAX_CACHED_RESULTS
    && forall i | 0 <= i < |results| ::
      results[i].readEpoch == readEpoch && Current(epochs, fences, results[i].key, results[i].requestedAt)
  }

  ghost predicate Inv(h: Hub, n: nat) {
    && JobsOk(h.jobs, n)
    && SharedOk(h.shared, h.jobs)
    && SubscribersOk(h.subscribers, h.jobs, h.clients.Keys, n)
    && OwnersOk(h.clients, h.jobs, h.subscribers)
    && EpochsOk(h.epochs, h.fences, h.jobs, n)
    && OperationsOk(h.operations, h.clients.Keys, n)
    && ResultsOk(h.clients, h.epochs, h.fences)
  }

  lemma InvGrows(h: Hub, n: nat)
    requires Inv(h, n)
    ensures Inv(h, n + 1)
  {}

  lemma BumpReadEpochKeepsInv(h: Hub, c: nat, n: nat)
    requires Inv(h, n) && c in h.clients
    ensures Inv(BumpReadEpoch(h, c), n)
  {}

  lemma BumpMutationEpochKeepsInv(h: Hub, repository: nat, n: nat)
    requires Inv(h, n) && h.step < n
    ensures Inv(BumpMutationEpoch(h, repository), n)
  {}

  lemma InvalidateReadsKeepsInv(h: Hub, c: nat, n: nat)
    requires Inv(h, n) && h.step < n && c in h.clients
    ensures Inv(InvalidateReads(h, c), n)
  {
    BumpMutationEpochKeepsInv(h, h.clients[c].repository, n);
    BumpReadEpochKeepsInv(BumpMutationEpoch(h, h.clients[c].repository), c, n);
  }

  lemma ClientsKeepInv(h: Hub, clients: map<nat, Client>, n: nat)
    requires Inv(h, n) && clients.Keys == h.clients.Keys
    requires forall c | c in clients ::
      && clients[c].readJobs == h.clients[c].readJobs
      && EntriesOk(clients[c].results, clients[c].readEpoch, h.epochs, h.fences)
    ensures Inv(h.(clients := clients), n)
  {}

  lemma LeaveKeepsSubscribers(subscribers: map<nat, Subscriber>, jobs: map<nat, Job>, clients: set<nat>,
                              leaving: set<nat>, n: nat)
    requires SubscribersOk(subscribers, jobs, clients, n)
    requires forall s | s in leaving :: s in subscribers && subscribers[s].settled == 0
    ensures SubscribersOk(SettleAll(subscribers, leaving), DepartAll(jobs, leaving), clients, n)
  {
    var after, jobs' := SettleAll(subscribers, leaving), DepartAll(jobs, leaving);
    forall s | s in subscribers ensures SubscriberOk(s, after[s], jobs', clients) {
      assert SubscriberOk(s, subscribers[s], jobs, clients);
    }
    forall j, s | j in jobs' && s in jobs'[j].subscribers
      ensures s in after && after[s].job == j && after[s].settled == 0
    {
      assert s in jobs[j].subscribers && s !in leaving;
    }
  }

  lemma LeaveKeepsShared(shared: map<ShareKey, nat>, jobs: map<nat, Job>, leaving: set<nat>, n: nat)
    requires SharedOk(shared, jobs) && JobsOk(jobs, n)
    ensures SharedOk(StillShared(shared, jobs, leaving), DepartAll(jobs, leaving))
    ensures JobsOk(DepartAll(jobs, leaving), n)
  {}

  lemma LeaveKeepsOwner(subscribers: map<nat, Subscriber>, c: nat, some: set<nat>, leaving: set<nat>)
    requires forall s | s in leaving && s in subscribers :: subscribers[s].owner != c
    ensures Owns(SettleAll(subscribers, leaving), c, some - leaving) <==> Owns(subscribers, c, some)
  {
    if Owns(subscribers, c, some) {
      var s :| s in some && s in subscribers && subscribers[s].owner == c;
      assert s in some - leaving && SettleAll(subscribers, leaving)[s].owner == c;
    }
  }

  lemma SettlingKeepsOwner(subscribers: map<nat, Subscriber>, c: nat, some: set<nat>, leaving: set<nat>)
    ensures Owns(SettleAll(subscribers, leaving), c, some) <==> Owns(subscribers, c, some)
  {}

  lemma LeaveKeepsOwners(h: Hub, c: nat, leaving: set<nat>)
    requires c in h.clients && leaving <= PendingOf(h, c)
    requires OwnersOk(h.clients, h.jobs, h.subscribers)
    ensures var g := Leave(h, c, leaving); OwnersOk(g.clients, g.jobs, g.subscribers)
  {
    var g := Leave(h, c, leaving);
    forall d, j | d in h.clients && j in h.jobs
      ensures j in g.clients[d].readJobs <==> Owns(g.subscribers, d, g.jobs[j].subscribers)
    {
      assert g.jobs[j].subscribers == h.jobs[j].subscribers - leaving;
      if d == c {
        SettlingKeepsOwner(h.subscribers, c, g.jobs[j].subscribers, leaving);
      } else {
        LeaveKeepsOwner(h.subscribers, d, h.jobs[j].subscribers, leaving);
      }
    }
  }

  lemma LeaveKeepsInv(h: Hub, c: nat, leaving: set<nat>, n: nat)
    requires Inv(h, n) && c in h.clients && leaving <= PendingOf(h, c)
    ensures Inv(Leave(h, c, leaving), n)
  {
    var g := Leave(h, c, leaving);
    assert g.clients.Keys == h.clients.Keys;
    LeaveKeepsSubscribers(h.subscribers, h.jobs, h.clients.Keys, leaving, n);
    LeaveKeepsShared(h.shared, h.jobs, leaving, n);
    LeaveKeepsOwners(h, c, leaving);
  }

  lemma CancelOwnKeepsInv(h: Hub, c: nat, n: nat)
    requires Inv(h, n) && c in h.clients
    ensures Inv(CancelOwn(h, c), n)
  {
    BumpReadEpochKeepsInv(h, c, n);
    LeaveKeepsInv(BumpReadEpoch(h, c), c, PendingOf(BumpReadEpoch(h, c), c), n);
  }

  lemma UseRepositoryKeepsInv(h: Hub, c: nat, repository: nat, n: nat)
    requires Inv(h, n) && h.step < n && c in h.clients
    ensures Inv(UseRepository(h, c, repository), n)
  {
    InvalidateReadsKeepsInv(h, c, n);
    CancelOwnKeepsInv(InvalidateReads(h, c), c, n);
    if repository != h.clients[c].repository {
      var g := CancelOwn(InvalidateReads(h, c), c);
      ClientsKeepInv(g, Rebound(g, c, repository).clients, n);
    }
  }

  lemma BeginMutationKeepsInv(h: Hub, c: nat, n: nat)
    requires Inv(h, n) && h.step < n && c in h.clients
    ensures Inv(BeginMutation(h, c), n)
  {
    BumpReadEpochKeepsInv(h, c, n);
    var g := BumpReadEpoch(h, c);
    InvalidateReadsKeepsInv(g, c, n);
    BumpMutationEpochKeepsInv(InvalidateReads(g, c), h.clients[c].repository, n);
  }

  lemma SettleMutationKeepsInv(h: Hub, op: nat, n: nat)
    requires Inv(h, n) && h.step < n && op in h.operations && h.operations[op].client in h.clients
    ensures Inv(SettleMutation(h, op), n)
  {
    var g := BumpMutationEpoch(h, h.operations[op].repository);
    BumpMutationEpochKeepsInv(h, h.operations[op].repository, n);
    BumpReadEpochKeepsInv(g.(operations := g.operations - {op}), h.operations[op].client, n);
  }

  lemma DropStaleKeepsInv(h: Hub, c: nat, key: Option<ShareKey>, n: nat)
    requires Inv(h, n) && c in h.clients
    ensures Inv(DropStale(h, c, key), n)
  {}

  // The value job `j` may take: unchanged but for flags, or new without subscribers.
  ghost predicate Subscribable(jobs: map<nat, Job>, j: nat, job: Job) {
    if j in jobs then job == jobs[j] else job.subscribers == {}
  }

  lemma SubscribeKeepsSubscribers(subscribers: map<nat, Subscriber>, jobs: map<nat, Job>, clients: set<nat>,
                                  s: nat, subscriber: Subscriber, job: Job)
    requires SubscribersOk(subscribers, jobs, clients, s)
    requires Subscribable(jobs, subscriber.job, job)
    requires subscriber.owner in clients && subscriber.settled == 0
    requires job.key.Some? ==> subscriber.mutationEpoch == job.key.value.mutationEpoch
    ensures SubscribersOk(subscribers[s := subscriber],
                          jobs[subscriber.job := job.(subscribers := job.subscribers + {s})], clients, s + 1)
  {
    assert s !in subscribers;
    var after := jobs[subscriber.job := job.(subscribers := job.subscribers + {s})];
    forall t | t in subscribers ensures SubscriberOk(t, subscribers[t], after, clients) {
      assert SubscriberOk(t, subscribers[t], jobs, clients);
    }
  }

  lemma SubscribeKeepsOwners(clients: map<nat, Client>, jobs: map<nat, Job>, subscribers: map<nat, Subscriber>,
                             s: nat, subscriber: Subscriber, job: Job)
    requires subscriber.owner in clients && Subscribable(jobs, subscriber.job, job)
    requires SubscribersOk(subscribers, jobs, clients.Keys, s)
    requires OwnersOk(clients, jobs, subscribers)
    ensures OwnersOk(Watching(clients, subscriber.owner, subscriber.job),
                     jobs[subscriber.job := job.(subscribers := job.subscribers + {s})], subscribers[s := subscriber])
  {}

  lemma WatchingKeepsResults(clients: map<nat, Client>, c: nat, j: nat, epochs: map<nat, nat>, fences: map<nat, nat>)
    requires c in clients && ResultsOk(clients, epochs, fences)
    ensures ResultsOk(Watching(clients, c, j), epochs, fences) && Watching(clients, c, j).Keys == clients.Keys
  {}

  lemma SubscribeKeepsInv(h: Hub, c: nat, j: nat, job: Job, n: nat)
    requires Inv(h, h.step) && c in h.clients && Subscribable(h.jobs, j, job) && n == h.step + 1
    requires job.key.Some? ==> job.key.value.mutationEpoch == At(h.epochs, h.clients[c].repository)
    ensures var g := Subscribe(h, c, j, job);
            && SubscribersOk(g.subscribers, g.jobs, g.clients.Keys, n)
            && OwnersOk(g.clients, g.jobs, g.subscribers)
            && OperationsOk(g.operations, g.clients.Keys, n)
            && ResultsOk(g.clients, g.epochs, g.fences)
  {
    var subscriber := Subscriber(c, j, h.clients[c].readEpoch, At(h.epochs, h.clients[c].repository), 0);
    SubscribeKeepsSubscribers(h.subscribers, h.jobs, h.clients.Keys, h.step, subscriber, job);
    SubscribeKeepsOwners(h.clients, h.jobs, h.subscribers, h.step, subscriber, job);
    WatchingKeepsResults(h.clients, c, j, h.epochs, h.fences);
  }

  lemma JobKeepsEpochs(epochs: map<nat, nat>, fences: map<nat, nat>, jobs: map<nat, Job>, j: nat, job: Job, n: nat)
    requires EpochsOk(epochs, fences, jobs, n)
    requires job.key.Some? ==> Current(epochs, fences, job.key.value, j)
    ensures EpochsOk(epochs, fences, jobs[j := job], n + 1)
  {}

  lemma JoinKeepsShared(shared: map<ShareKey, nat>, jobs: map<nat, Job>, key: ShareKey, s: nat, n: nat)
    requires SharedOk(shared, jobs) && JobsOk(jobs, n) && key in shared
    ensures var j := shared[key];
            var job := jobs[j].(subscribers := jobs[j].subscribers + {s});
            Share(shared, Some(key), j) == shared && SharedOk(shared, jobs[j := job]) && JobsOk(jobs[j := job], n + 1)
  {}

  lemma LaunchKeepsShared(shared: map<ShareKey, nat>, jobs: map<nat, Job>, j: nat, job: Job, n: nat)
    requires SharedOk(shared, jobs) && JobsOk(jobs, n) && j !in jobs && j <= n && Live(job) && JobOk(job)
    requires job.key.Some? ==> job.key.value !in shared
    ensures SharedOk(Share(shared, job.key, j), jobs[j := job])
    ensures JobsOk(jobs[j := job], n + 1)
  {}

  lemma AnswerShape(h: Hub, c: nat, request: nat, cacheable: bool, aborted: bool, now: int)
    requires c in h.clients
    ensures var key := KeyOf(h, c, request, cacheable);
            match Answer(h, c, request, cacheable, aborted, now)
            case Joined(j) => key.Some? && key.value in h.shared && h.shared[key.value] == j
            case Fresh(j) => j == h.step && (key.Some? ==> key.value !in h.shared)
            case _ => true
  {}

  lemma WaitKeepsShared(h: Hub, c: nat, key: Option<ShareKey>, j: nat)
    requires Inv(h, h.step) && c in h.clients
    requires key.Some? ==> key.value.repository == h.clients[c].repository
    requires (key.Some? && key.value in h.shared && h.shared[key.value] == j)
             || (j == h.step && (key.Some? ==> key.value !in h.shared))
    ensures var job := JobFor(h.jobs, h.operations, h.clients[c].repository, key, j);
            var jobs := h.jobs[j := job.(subscribers := job.subscribers + {h.step})];
            && job.key == key && Subscribable(h.jobs, j, job)
            && SharedOk(Share(h.shared, key, j), jobs) && JobsOk(jobs, h.step + 1)
  {
    hide SubscribersOk, OwnersOk, EpochsOk, ResultsOk, Mutating;
    var job := JobFor(h.jobs, h.operations, h.clients[c].repository, key, j);
    if key.Some? && key.value in h.shared {
      JoinKeepsShared(h.shared, h.jobs, key.value, h.step, h.step);
    } else {
      LaunchKeepsShared(h.shared, h.jobs, j, job.(subscribers := {h.step}), h.step);
      assert job.subscribers + {h.step} == {h.step};
    }
  }

  lemma WaitKeepsInv(h: Hub, g: Hub, c: nat, key: Option<ShareKey>, j: nat)
    requires Inv(h, h.step) && Inv(g, h.step) && c in h.clients && g == h.(clients := g.clients)
    requires c in g.clients && g.clients[c].repository == h.clients[c].repository
    requires key.Some? ==> key.value.repository == h.clients[c].repository
                           && key.value.mutationEpoch == At(h.epochs, key.value.repository)
    requires (key.Some? && key.value in h.shared && h.shared[key.value] == j)
             || (j == h.step && (key.Some? ==> key.value !in h.shared))
    ensures Inv(Joining(g, c, key, j), h.step + 1)
  {
    var job := JobFor(h.jobs, h.operations, h.clients[c].repository, key, j);
    WaitKeepsShared(h, c, key, j);
    KeyIsCurrent(h, key, j);
    JobKeepsEpochs(h.epochs, h.fences, h.jobs, j, job.(subscribers := job.subscribers + {h.step}), h.step);
    SubscribeKeepsInv(g, c, j, job, h.step + 1);
    hide JobFor, Share, SubscribersOk, OwnersOk, ResultsOk, SharedOk, JobsOk, EpochsOk, OperationsOk, Watching;
  }

  lemma KeyOfIsNow(h: Hub, c: nat, request: nat, cacheable: bool)
    requires c in h.clients
    ensures var key := KeyOf(h, c, request, cacheable);
            key.Some? ==> key.value.repository == h.clients[c].repository
                          && key.value.mutationEpoch == At(h.epochs, key.value.repository)
  {}

  lemma RequestKeepsInv(h: Hub, c: nat, request: nat, cacheable: bool, aborted: bool, now: int)
    requires Inv(h, h.step) && c in h.clients
    ensures Inv(RequestRead(h, c, request, cacheable, aborted, now), h.step + 1)
  {
    hide Answer, KeyOf, Inv, WithoutStale, Joining;
    var key := KeyOf(h, c, request, cacheable);
    var answer := Answer(h, c, request, cacheable, aborted, now);
    AnswerShape(h, c, request, cacheable, aborted, now);
    KeyOfIsNow(h, c, request, cacheable);
    DropStaleKeepsInv(h, c, key, h.step);
    InvGrows(h, h.step);
    if answer.Joined? || answer.Fresh? {
      WaitKeepsInv(h, DropStale(h, c, key), c, key, answer.job);
    }
  }

  // The key of a shared job is current, and so is a key made now.
  lemma KeyIsCurrent(h: Hub, key: Option<ShareKey>, j: nat)
    requires Inv(h, h.step)
    requires key.Some? ==> key.value.mutationEpoch == At(h.epochs, key.value.repository)
    requires (key.Some? && key.value in h.shared && h.shared[key.value] == j) || j == h.step
    ensures key.Some? ==> Current(h.epochs, h.fences, key.value, j)
  {}

  lemma FlagsKeepShared(shared: map<ShareKey, nat>, jobs: map<nat, Job>, j: nat, job: Job, n: nat)
    requires SharedOk(shared, jobs) && JobsOk(jobs, n) && j in jobs && JobOk(job)
    requires job.key == jobs[j].key && (Live(job) <==> Live(jobs[j]))
    ensures SharedOk(shared, jobs[j := job]) && JobsOk(jobs[j := job], n)
  {}

  lemma FlagsKeepSubscribers(subscribers: map<nat, Subscriber>, jobs: map<nat, Job>, clients: set<nat>,
                             j: nat, job: Job, n: nat)
    requires SubscribersOk(subscribers, jobs, clients, n) && j in jobs
    requires job.key == jobs[j].key && job.subscribers == jobs[j].subscribers
    ensures SubscribersOk(subscribers, jobs[j := job], clients, n)
  {}

  lemma FlagsKeepInv(h: Hub, j: nat, job: Job, n: nat)
    requires Inv(h, n) && j in h.jobs && JobOk(job)
    requires job.key == h.jobs[j].key && job.subscribers == h.jobs[j].subscribers
    requires Live(job) <==> Live(h.jobs[j])
    ensures Inv(h.(jobs := h.jobs[j := job]), n)
  {
    FlagsKeepShared(h.shared, h.jobs, j, job, n);
    FlagsKeepSubscribers(h.subscribers, h.jobs, h.clients.Keys, j, job, n);
    hide SharedOk, JobsOk, SubscribersOk, ResultsOk;
  }

  lemma EnqueueKeepsInv(h: Hub, j: nat, n: nat)
    requires Inv(h, n)
    ensures Inv(EnqueueJob(h, j), n)
  {
    if j in h.jobs { FlagsKeepInv(h, j, Enqueued(h.jobs[j]), n); }
  }

  lemma StartKeepsInv(h: Hub, j: nat, n: nat)
    requires Inv(h, n)
    ensures Inv(StartJob(h, j), n)
  {
    if j in h.jobs { FlagsKeepInv(h, j, Started(h.jobs[j], Mutating(h.operations, h.jobs[j].repository)), n); }
  }

  lemma {:induction false} UnexpiredIsShorter(results: seq<Entry>, now: int)
    ensures |Unexpired(results, now)| <= |results|
    ensures forall entry | entry in Unexpired(results, now) :: entry in results && entry.expiresAt >= now
  {
    if results != [] { UnexpiredIsShorter(results[..|results| - 1], now); }
  }

  lemma StoreKeeps(results: seq<Entry>, entry: Entry, now: int, readEpoch: nat,
                   epochs: map<nat, nat>, fences: map<nat, nat>)
    requires EntriesOk(results, readEpoch, epochs, fences)
    requires entry.readEpoch == readEpoch && Current(epochs, fences, entry.key, entry.requestedAt)
    ensures EntriesOk(Store(results, entry, now), readEpoch, epochs, fences)
  {
    UnexpiredIsShorter(results, now);
    var kept := Unexpired(results, now);
    forall i | 0 <= i < |kept|
      ensures kept[i].readEpoch == readEpoch && Current(epochs, fences, kept[i].key, kept[i].requestedAt)
    {
      assert kept[i] in results;
    }
  }

  lemma DeliveredKeeps(h: Hub, j: nat, c: nat, value: Option<nat>, now: int, n: nat)
    requires Inv(h, n) && j in h.jobs && c in h.clients
    ensures var client := Delivered(h, j, h.jobs[j].subscribers, c, value, now);
            EntriesOk(client.results, client.readEpoch, h.epochs, h.fences)
  {
    var client := h.clients[c];
    if value.Some? && h.jobs[j].key.Some? {
      StoreKeeps(client.results, EntryFor(h, j, client.readEpoch, value.value, now), now, client.readEpoch,
                 h.epochs, h.fences);
    }
  }

  lemma FinishKeepsSubscribers(subscribers: map<nat, Subscriber>, jobs: map<nat, Job>, clients: set<nat>,
                               j: nat, job: Job, n: nat)
    requires SubscribersOk(subscribers, jobs, clients, n) && j in jobs
    requires job.subscribers == {} && job.key == jobs[j].key
    ensures SubscribersOk(SettleAll(subscribers, jobs[j].subscribers), jobs[j := job], clients, n)
  {}

  lemma FinishKeepsShared(shared: map<ShareKey, nat>, jobs: map<nat, Job>, j: nat, job: Job, n: nat)
    requires SharedOk(shared, jobs) && JobsOk(jobs, n) && j in jobs && JobOk(job) && !Live(job)
    ensures SharedOk(Unshare(shared, j), jobs[j := job]) && JobsOk(jobs[j := job], n)
  {}

  lemma FinishKeepsOwners(h: Hub, j: nat, value: Option<nat>, now: int, n: nat)
    requires j in h.jobs && !h.jobs[j].finished
    requires SubscribersOk(h.subscribers, h.jobs, h.clients.Keys, n)
    requires OwnersOk(h.clients, h.jobs, h.subscribers)
    ensures var g := FinishJob(h, j, value, now); OwnersOk(g.clients, g.jobs, g.subscribers)
  {
    var g := FinishJob(h, j, value, now);
    forall d, i | d in h.clients && i in h.jobs
      ensures i in g.clients[d].readJobs <==> Owns(g.subscribers, d, g.jobs[i].subscribers)
    {
      if i != j {
        SettlingKeepsOwner(h.subscribers, d, h.jobs[i].subscribers, h.jobs[j].subscribers);
      }
    }
  }

  lemma FinishKeepsInv(h: Hub, j: nat, value: Option<nat>, now: int, n: nat)
    requires Inv(h, n) && j in h.jobs && h.jobs[j].started
    ensures Inv(FinishJob(h, j, value, now), n)
  {
    if h.jobs[j].finished { return; }
    var g := FinishJob(h, j, value, now);
    FinishKeepsSubscribers(h.subscribers, h.jobs, h.clients.Keys, j, g.jobs[j], n);
    FinishKeepsShared(h.shared, h.jobs, j, g.jobs[j], n);
    FinishKeepsOwners(h, j, value, now, n);
    assert g.clients.Keys == h.clients.Keys;
    forall c | c in h.clients
      ensures EntriesOk(g.clients[c].results, g.clients[c].readEpoch, h.epochs, h.fences)
    {
      DeliveredKeeps(h, j, c, value, now, n);
    }
  }

  lemma NewClientKeepsInv(h: Hub, c: nat, repository: nat, n: nat)
    requires Inv(h, n) && c !in h.clients
    ensures Inv(h.(clients := h.clients[c := Client(repository, 0, [], {})]), n)
  {
    var clients := h.clients[c := Client(repository, 0, [], {})];
    forall s | s in h.subscribers ensures SubscriberOk(s, h.subscribers[s], h.jobs, clients.Keys) {
      assert SubscriberOk(s, h.subscribers[s], h.jobs, h.clients.Keys);
    }
    assert OwnersOk(clients, h.jobs, h.subscribers) by {
      forall j | j in h.jobs ensures !Owns(h.subscribers, c, h.jobs[j].subscribers) {
        assert forall s | s in h.jobs[j].subscribers :: SubscriberOk(s, h.subscribers[s], h.jobs, h.clients.Keys);
      }
    }
  }

  predicate Fencing(e: Event) {
    e.Begin? || e.Settle? || e.Invalidate? || e.Rebind? || e.Dispose?
  }

  lemma FenceKeepsInv(h: Hub, e: Event)
    requires Inv(h, h.step) && Fencing(e)
    ensures Inv(Effect(h, e), h.step + 1)
  {
    var n := h.step + 1;
    InvGrows(h, h.step);
    if e.Settle? {
      if e.operation in h.operations { SettleMutationKeepsInv(h, e.operation, n); }
    } else if e.client in h.clients {
      match e
      case Begin(c) => BeginMutationKeepsInv(h, c, n);
      case Invalidate(c) => InvalidateReadsKeepsInv(h, c, n);
      case Rebind(c, repository) => UseRepositoryKeepsInv(h, c, repository, n);
      case Dispose(c) =>
        InvalidateReadsKeepsInv(h, c, n);
        CancelOwnKeepsInv(InvalidateReads(h, c), c, n);
    }
  }

  lemma ReadKeepsInv(h: Hub, e: Event)
    requires Inv(h, h.step) && !Fencing(e)
    ensures Inv(Effect(h, e), h.step + 1)
  {
    var n := h.step + 1;
    InvGrows(h, h.step);
    match e
    case NewClient(c, repository) => if c !in h.clients { NewClientKeepsInv(h, c, repository, n); }
    case Request(c, request, cacheable, aborted, now) =>
      if c in h.clients { RequestKeepsInv(h, c, request, cacheable, aborted, now); }
    case LeaveRead(s) =>
      if s in h.subscribers && h.subscribers[s].settled == 0 {
        LeaveKeepsInv(h, h.subscribers[s].owner, {s}, n);
      }
    case MutationsCleared(j) => EnqueueKeepsInv(h, j, n);
    case Slot(j) => StartKeepsInv(h, j, n);
    case Complete(j, value, now) => if j in h.jobs && h.jobs[j].started { FinishKeepsInv(h, j, value, now, n); }
    case Idle =>
  }

  lemma StepKeepsInv(h: Hub, e: Event)
    requires Inv(h, h.step)
    ensures Inv(Step(h, e), h.step + 1)
  {
    if Fencing(e) {
      FenceKeepsInv(h, e);
    } else {
      ReadKeepsInv(h, e);
    }
  }

  lemma EffectKeepsStep(h: Hub, e: Event)
    ensures Effect(h, e).step == h.step
  {}

  // The shared-read invariant, over every run of every client.
  lemma {:induction false} SharedReadInvariant(events: seq<Event>)
    ensures Run(events).step == |events| && Inv(Run(events), |events|)
  {
    if events != [] {
      var before := events[..|events| - 1];
      SharedReadInvariant(before);
      StepKeepsInv(Run(before), events[|events| - 1]);
      EffectKeepsStep(Run(before), events[|events| - 1]);
    }
  }

  // ---- What each composite operation touches ----

  // The part of the invariant that framing needs: unused names, and no finished job is shared.
  ghost predicate Ready(h: Hub) {
    && h.step !in h.jobs && h.step !in h.subscribers
    && forall k | k in h.shared :: h.shared[k] in h.jobs && !h.jobs[h.shared[k]].finished
  }

  lemma InvIsReady(h: Hub)
    requires Inv(h, h.step)
    ensures Ready(h)
  {}

  // A fencing event advances the epoch of one checkout, empties one client's results, and at most
  // rejects that client's own subscribers.
  ghost predicate FenceDelta(h: Hub, g: Hub, c: nat, repository: nat, leaving: set<nat>)
    requires c in h.clients
  {
    && g.step == h.step && leaving <= PendingOf(h, c)
    && g.jobs == DepartAll(h.jobs, leaving) && g.subscribers == SettleAll(h.subscribers, leaving)
    && At(g.epochs, repository) > At(h.epochs, repository)
    && g.epochs == h.epochs[repository := At(g.epochs, repository)]
    && g.fences == h.fences[repository := h.step + 1]
    && g.clients.Keys == h.clients.Keys && g.clients[c].results == []
    && (forall d | d in h.clients && d != c :: g.clients[d] == h.clients[d])
  }

  // The client whose results event `e` empties, with the checkout it fences; none when `e` does nothing.
  function FenceOf(h: Hub, e: Event): Option<(nat, nat)>
    requires Fencing(e)
  {
    match e
    case Settle(op) =>
      if op in h.operations && h.operations[op].client in h.clients
      then Some((h.operations[op].client, h.operations[op].repository)) else None
    case Rebind(c, next) =>
      if c in h.clients && next != h.clients[c].repository then Some((c, h.clients[c].repository)) else None
    case _ => if e.client in h.clients then Some((e.client, h.clients[e.client].repository)) else None
  }

  lemma NobodyLeaves(jobs: map<nat, Job>, subscribers: map<nat, Subscriber>)
    ensures DepartAll(jobs, {}) == jobs && SettleAll(subscribers, {}) == subscribers
  {
    assert forall j | j in jobs :: jobs[j].subscribers - {} == jobs[j].subscribers;
  }

  lemma InvalidateDelta(h: Hub, c: nat)
    requires c in h.clients
    ensures FenceDelta(h, InvalidateReads(h, c), c, h.clients[c].repository, {})
    ensures InvalidateReads(h, c).clients[c].repository == h.clients[c].repository
    ensures InvalidateReads(h, c).clients[c].readJobs == h.clients[c].readJobs
    ensures InvalidateReads(h, c).jobs == h.jobs && InvalidateReads(h, c).subscribers == h.subscribers
  {
    NobodyLeaves(h.jobs, h.subscribers);
  }

  lemma BeginDelta(h: Hub, c: nat)
    requires c in h.clients
    ensures FenceDelta(h, BeginMutation(h, c), c, h.clients[c].repository, {})
  {
    NobodyLeaves(h.jobs, h.subscribers);
    var r := h.clients[c].repository;
    assert BeginMutation(h, c).epochs == h.epochs[r := At(h.epochs, r) + 2];
  }

  lemma SettleDelta(h: Hub, op: nat)
    requires op in h.operations && h.operations[op].client in h.clients
    ensures FenceDelta(h, SettleMutation(h, op), h.operations[op].client, h.operations[op].repository, {})
  {
    NobodyLeaves(h.jobs, h.subscribers);
  }

  lemma CancelDelta(h: Hub, g: Hub, c: nat)
    requires c in h.clients && FenceDelta(h, g, c, h.clients[c].repository, {})
    requires g.jobs == h.jobs && g.subscribers == h.subscribers && g.clients[c].readJobs == h.clients[c].readJobs
    ensures FenceDelta(h, CancelOwn(g, c), c, h.clients[c].repository, PendingOf(h, c))
    ensures CancelOwn(g, c).clients[c].readJobs ==
            StillRead(h.clients[c].readJobs, DepartAll(h.jobs, PendingOf(h, c)), h.subscribers, c)
  {}

  lemma RebindDelta(h: Hub, c: nat, repository: nat)
    requires c in h.clients && repository != h.clients[c].repository
    ensures FenceDelta(h, UseRepository(h, c, repository), c, h.clients[c].repository, PendingOf(h, c))
    ensures UseRepository(h, c, repository).clients[c].readJobs ==
            StillRead(h.clients[c].readJobs, DepartAll(h.jobs, PendingOf(h, c)), h.subscribers, c)
    ensures UseRepository(h, c, repository).clients[c].repository == repository
  {}

  ghost function Leavers(h: Hub, e: Event): set<nat>
    requires Fencing(e)
  {
    if e.Rebind? || e.Dispose? then PendingOf(h, e.client) else {}
  }

  lemma FencingEffect(h: Hub, e: Event)
    requires Fencing(e)
    ensures FenceOf(h, e).Some? ==>
      && FenceOf(h, e).value.0 in h.clients
      && FenceDelta(h, Effect(h, e), FenceOf(h, e).value.0, FenceOf(h, e).value.1, Leavers(h, e))
    ensures FenceOf(h, e).None? ==> Effect(h, e) == h
  {
    if FenceOf(h, e).Some? {
      match e
      case Begin(c) => BeginDelta(h, c);
      case Settle(op) => SettleDelta(h, op);
      case Invalidate(c) => InvalidateDelta(h, c);
      case Rebind(c, next) => RebindDelta(h, c, next);
      case Dispose(c) => InvalidateDelta(h, c); CancelDelta(h, InvalidateReads(h, c), c);
    }
  }

  lemma RequestKeepsFences(h: Hub, c: nat, request: nat, cacheable: bool, aborted: bool, now: int)
    requires c in h.clients
    ensures var g := RequestRead(h, c, request, cacheable, aborted, now);
            g.epochs == h.epochs && g.fences == h.fences && g.step == h.step
  {}

  // Nothing but an answer adds to a client's results.
  ghost predicate Shrinks(h: Hub, g: Hub, c: nat)
    requires c in g.clients
  {
    g.clients[c].results == [] ||
    (c in h.clients && forall entry | entry in g.clients[c].results :: entry in h.clients[c].results)
  }

  lemma FinishJobs(h: Hub, j: nat, value: Option<nat>, now: int)
    ensures FinishJob(h, j, value, now).jobs ==
            if j in h.jobs
            then h.jobs[j := h.jobs[j].(finished := true,
                                        subscribers := if h.jobs[j].finished then h.jobs[j].subscribers else {})]
            else h.jobs
  {}

  lemma FinishClients(h: Hub, j: nat, value: Option<nat>, now: int)
    ensures FinishJob(h, j, value, now).clients.Keys == h.clients.Keys
    ensures FinishJob(h, j, value, now).epochs == h.epochs && FinishJob(h, j, value, now).fences == h.fences
    ensures FinishJob(h, j, value, now).step == h.step
  {}

  lemma LeaveJobs(h: Hub, c: nat, leaving: set<nat>)
    requires c in h.clients
    ensures Leave(h, c, leaving).jobs == DepartAll(h.jobs, leaving)
  {}

  // ---- Read your writes ----

  // Event `e` begins or ends a mutation of `repository`, or invalidates its reads.
  predicate Fences(h: Hub, e: Event, repository: nat) {
    Fencing(e) && FenceOf(h, e).Some? && FenceOf(h, e).value.1 == repository
  }

  ghost predicate Recorded(h: Hub, e: Event, repository: nat, g: Hub) {
    if Fences(h, e, repository)
    then At(g.fences, repository) == h.step + 1 && At(g.epochs, repository) > At(h.epochs, repository)
    else At(g.fences, repository) == At(h.fences, repository) && At(g.epochs, repository) == At(h.epochs, repository)
  }

  lemma FencesAreRecorded(h: Hub, e: Event, repository: nat)
    requires Ready(h)
    ensures Recorded(h, e, repository, Effect(h, e))
  {
    hide BeginMutation, SettleMutation, UseRepository, CancelOwn, InvalidateReads, RequestRead, FinishJob;
    if Fencing(e) {
      FencingEffect(h, e);
    } else if e.Request? {
      if e.client in h.clients { RequestKeepsFences(h, e.client, e.request, e.cacheable, e.aborted, e.now); }
    } else if e.Complete? {
      FinishClients(h, e.job, e.value, e.now);
    }
  }

  lemma {:induction false} FencesLast(events: seq<Event>, i: nat, repository: nat)
    requires i < |events| && Fences(Run(events[..i]), events[i], repository)
    ensures i < At(Run(events).fences, repository)
  {
    hide Inv, Fences, Effect;
    var before := events[..|events| - 1];
    SharedReadInvariant(before);
    InvIsReady(Run(before));
    FencesAreRecorded(Run(before), events[|events| - 1], repository);
    if i < |before| {
      assert before[..i] == events[..i];
      FencesLast(before, i, repository);
    }
  }

  lemma AnswerIsCurrent(h: Hub, c: nat, request: nat, cacheable: bool, aborted: bool, now: int)
    requires Inv(h, h.step) && c in h.clients
    ensures var fence := At(h.fences, h.clients[c].repository);
            match Answer(h, c, request, cacheable, aborted, now)
            case Hit(_, requestedAt, _) => fence <= requestedAt
            case Joined(job) => fence <= job
            case Fresh(job) => job == h.step
            case Refused => aborted
  {}

  // For every run of every client: a read requested after a mutation of its checkout began or
  // settled (or after its reads were invalidated, by any client) is answered neither from a cached
  // value nor by a job that was requested before.
  lemma ReadYourWrites(events: seq<Event>, i: nat, q: nat)
    requires i < q < |events| && events[q].Request? && events[q].client in Run(events[..q]).clients
    requires var h := Run(events[..q]);
             Fences(Run(events[..i]), events[i], h.clients[events[q].client].repository)
    ensures var Request(c, request, cacheable, aborted, now) := events[q];
            match Answer(Run(events[..q]), c, request, cacheable, aborted, now)
            case Hit(_, requestedAt, _) => i < requestedAt
            case Joined(job) => i < job
            case Fresh(job) => job == q
            case Refused => aborted
  {
    var h := Run(events[..q]);
    var Request(c, request, cacheable, aborted, now) := events[q];
    SharedReadInvariant(events[..q]);
    assert events[..q][..i] == events[..i];
    FencesLast(events[..q], i, h.clients[c].repository);
    AnswerIsCurrent(h, c, request, cacheable, aborted, now);
  }

  // ---- What a cached value is ----

  // What can become of a job in one step.
  ghost predicate JobEvolves(h: Hub, e: Event, j: nat, before: Job, after: Job) {
    && after.key == before.key && after.repository == before.repository
    && (before.started ==> after.started)
    && (before.finished ==> after.finished && after.started == before.started)
    && (after.started && !before.started ==>
          e == Slot(j) && !Mutating(h.operations, before.repository) && before.subscribers != {})
  }

  lemma DepartEvolves(h: Hub, e: Event, j: nat, leaving: set<nat>)
    requires j in h.jobs
    ensures j in DepartAll(h.jobs, leaving) && JobEvolves(h, e, j, h.jobs[j], DepartAll(h.jobs, leaving)[j])
    ensures JobEvolves(h, e, j, h.jobs[j], h.jobs[j])
  {}

  lemma FenceKeepsJobs(h: Hub, e: Event, j: nat)
    requires Fencing(e) && j in h.jobs
    ensures j in Effect(h, e).jobs && JobEvolves(h, e, j, h.jobs[j], Effect(h, e).jobs[j])
  {
    hide Effect, JobEvolves, DepartAll, SettleAll, PendingOf, FenceOf;
    FencingEffect(h, e);
    DepartEvolves(h, e, j, Leavers(h, e));
  }

  lemma RequestKeepsJobs(h: Hub, e: Event, j: nat)
    requires Ready(h) && e.Request? && j in h.jobs
    ensures j in Effect(h, e).jobs && JobEvolves(h, e, j, h.jobs[j], Effect(h, e).jobs[j])
  {}

  lemma CompleteKeepsJobs(h: Hub, e: Event, j: nat)
    requires e.Complete? && j in h.jobs
    ensures j in Effect(h, e).jobs && JobEvolves(h, e, j, h.jobs[j], Effect(h, e).jobs[j])
  {}

  lemma DepartKeepsJobs(h: Hub, e: Event, j: nat)
    requires e.LeaveRead? && j in h.jobs
    ensures j in Effect(h, e).jobs && JobEvolves(h, e, j, h.jobs[j], Effect(h, e).jobs[j])
  {}

  lemma FlagsEvolve(h: Hub, j: nat)
    requires j in h.jobs
    ensures JobEvolves(h, MutationsCleared(j), j, h.jobs[j], Enqueued(h.jobs[j]))
    ensures JobEvolves(h, Slot(j), j, h.jobs[j], Started(h.jobs[j], Mutating(h.operations, h.jobs[j].repository)))
    ensures forall e :: JobEvolves(h, e, j, h.jobs[j], h.jobs[j])
  {
    hide Mutating;
  }

  lemma PoolKeepsJobs(h: Hub, e: Event, j: nat)
    requires (e.NewClient? || e.MutationsCleared? || e.Slot? || e.Idle?) && j in h.jobs
    ensures j in Effect(h, e).jobs && JobEvolves(h, e, j, h.jobs[j], Effect(h, e).jobs[j])
  {
    hide BeginMutation, SettleMutation, UseRepository, CancelOwn, InvalidateReads, RequestRead, FinishJob, Leave,
         JobEvolves, Enqueued, Started, Mutating;
    FlagsEvolve(h, j);
  }

  lemma ReadKeepsJobs(h: Hub, e: Event, j: nat)
    requires Ready(h) && !Fencing(e) && j in h.jobs
    ensures j in Effect(h, e).jobs && JobEvolves(h, e, j, h.jobs[j], Effect(h, e).jobs[j])
  {
    hide Effect, JobEvolves;
    if e.Request? { RequestKeepsJobs(h, e, j); }
    else if e.Complete? { CompleteKeepsJobs(h, e, j); }
    else if e.LeaveRead? { DepartKeepsJobs(h, e, j); }
    else { PoolKeepsJobs(h, e, j); }
  }

  lemma StepKeepsJobs(h: Hub, e: Event, j: nat)
    requires Ready(h) && j in h.jobs
    ensures j in Effect(h, e).jobs && JobEvolves(h, e, j, h.jobs[j], Effect(h, e).jobs[j])
  {
    if Fencing(e) { FenceKeepsJobs(h, e, j); } else { ReadKeepsJobs(h, e, j); }
  }

  // Job `j` was created by event `j`, a cacheable request for its key's checkout and request.
  ghost predicate JobFrom(events: seq<Event>, j: nat, key: ShareKey) {
    && j < |events| && events[j].Request? && events[j].cacheable && events[j].request == key.request
    && events[j].client in Run(events[..j]).clients
    && Run(events[..j]).clients[events[j].client].repository == key.repository
  }

  ghost predicate EntryFrom(events: seq<Event>, entry: Entry) {
    && JobFrom(events, entry.requestedAt, entry.key)
    && entry.requestedAt < entry.completedAt < |events|
    && events[entry.completedAt] ==
       Complete(entry.requestedAt, Some(entry.value), entry.expiresAt - READ_RESULT_CACHE_TTL_MS)
  }

  ghost predicate AllFrom(events: seq<Event>, h: Hub) {
    && (forall j | j in h.jobs && h.jobs[j].key.Some? :: JobFrom(events, j, h.jobs[j].key.value))
    && (forall c | c in h.clients :: EntriesFrom(events, h.clients[c].results))
  }

  ghost predicate EntriesFrom(events: seq<Event>, results: seq<Entry>) {
    forall i | 0 <= i < |results| :: EntryFrom(events, results[i])
  }

  lemma FromGrows(events: seq<Event>, e: Event, j: nat, key: ShareKey)
    requires JobFrom(events, j, key)
    ensures JobFrom(events + [e], j, key)
  {
    assert (events + [e])[..j] == events[..j];
  }

  lemma EntriesFromGrow(events: seq<Event>, e: Event, results: seq<Entry>)
    requires EntriesFrom(events, results)
    ensures EntriesFrom(events + [e], results)
  {
    forall i | 0 <= i < |results| ensures EntryFrom(events + [e], results[i]) {
      FromGrows(events, e, results[i].requestedAt, results[i].key);
    }
  }

  lemma UnexpiredFrom(events: seq<Event>, results: seq<Entry>, now: int)
    requires EntriesFrom(events, results)
    ensures EntriesFrom(events, Unexpired(results, now))
  {}

  lemma StoreFrom(events: seq<Event>, results: seq<Entry>, entry: Entry, now: int)
    requires EntriesFrom(events, results) && EntryFrom(events, entry)
    ensures EntriesFrom(events, Store(results, entry, now))
  {
    hide EntryFrom, Unexpired, Lookup;
    UnexpiredFrom(events, results, now);
  }

  lemma FenceShrinks(h: Hub, e: Event, c: nat)
    requires Fencing(e) && c in Effect(h, e).clients
    ensures Shrinks(h, Effect(h, e), c)
  {}

  lemma RequestShrinks(h: Hub, e: Event, c: nat)
    requires e.Request? && c in Effect(h, e).clients
    ensures Shrinks(h, Effect(h, e), c)
  {}

  lemma OthersShrink(h: Hub, e: Event, c: nat)
    requires !Fencing(e) && !e.Request? && !e.Complete? && c in Effect(h, e).clients
    ensures Shrinks(h, Effect(h, e), c)
  {
    hide BeginMutation, SettleMutation, UseRepository, CancelOwn, InvalidateReads, RequestRead, FinishJob,
         DepartAll, SettleAll, StillShared, StillRead, Mutating;
  }

  // Only a request creates a job.
  ghost predicate Created(h: Hub, e: Event, g: Hub, j: nat)
    requires j in g.jobs
  {
    j == h.step && e.Request? && e.client in h.clients && g.jobs[j].key == KeyOf(h, e.client, e.request, e.cacheable)
  }

  lemma FenceCreatesNothing(h: Hub, e: Event)
    requires Fencing(e)
    ensures Effect(h, e).jobs.Keys == h.jobs.Keys
  {}

  lemma RequestCreates(h: Hub, e: Event, j: nat)
    requires Ready(h) && e.Request? && j in Effect(h, e).jobs && j !in h.jobs
    ensures Created(h, e, Effect(h, e), j)
  {}

  lemma OthersCreateNothing(h: Hub, e: Event)
    requires !Fencing(e) && !e.Request?
    ensures Effect(h, e).jobs.Keys == h.jobs.Keys
  {
    hide BeginMutation, SettleMutation, UseRepository, CancelOwn, InvalidateReads, RequestRead, FinishJob,
         Leave, Mutating;
    if e.Complete? {
      FinishJobs(h, e.job, e.value, e.now);
    } else if e.LeaveRead? {
      if e.subscriber in h.subscribers && h.subscribers[e.subscriber].owner in h.clients {
        LeaveJobs(h, h.subscribers[e.subscriber].owner, {e.subscriber});
      }
    }
  }

  lemma CompleteEntries(events: seq<Event>, h: Hub, e: Event, c: nat)
    requires Ready(h) && AllFrom(events, h) && h.step == |events| && e.Complete? && c in h.clients
    ensures c in Effect(h, e).clients ==> EntriesFrom(events + [e], Effect(h, e).clients[c].results)
  {
    hide Store, BeginMutation, SettleMutation, UseRepository, CancelOwn, InvalidateReads, RequestRead, Leave, Unshare,
         SettleAll;
    var Complete(j, value, now) := e;
    var results := h.clients[c].results;
    EntriesFromGrow(events, e, results);
    if j in h.jobs && !h.jobs[j].finished && h.jobs[j].key.Some? && value.Some? {
      FromGrows(events, e, j, h.jobs[j].key.value);
      var entry := EntryFor(h, j, h.clients[c].readEpoch, value.value, now);
      assert EntryFrom(events + [e], entry);
      StoreFrom(events + [e], results, entry, now);
    }
  }

  lemma JobsFromGrow(events: seq<Event>, e: Event, h: Hub)
    requires h == Run(events) && AllFrom(events, h) && Ready(h) && h.step == |events|
    ensures var g := Effect(h, e);
            forall j | j in g.jobs && g.jobs[j].key.Some? :: JobFrom(events + [e], j, g.jobs[j].key.value)
  {
    var g := Effect(h, e);
    forall j | j in g.jobs && g.jobs[j].key.Some? ensures JobFrom(events + [e], j, g.jobs[j].key.value) {
      if j in h.jobs {
        StepKeepsJobs(h, e, j);
        FromGrows(events, e, j, h.jobs[j].key.value);
      } else {
        if Fencing(e) { FenceCreatesNothing(h, e); }
        else if e.Request? { RequestCreates(h, e, j); }
        else { OthersCreateNothing(h, e); }
        assert (events + [e])[..j] == events;
      }
    }
  }

  lemma ShrunkFrom(events: seq<Event>, e: Event, h: Hub, g: Hub, c: nat)
    requires AllFrom(events, h) && c in g.clients && Shrinks(h, g, c)
    ensures EntriesFrom(events + [e], g.clients[c].results)
  {
    if c in h.clients {
      EntriesFromGrow(events, e, h.clients[c].results);
      forall i | 0 <= i < |g.clients[c].results| ensures EntryFrom(events + [e], g.clients[c].results[i]) {
        assert g.clients[c].results[i] in g.clients[c].results;
      }
    }
  }

  lemma ResultsFromGrow(events: seq<Event>, e: Event, h: Hub, c: nat)
    requires AllFrom(events, h) && Ready(h) && h.step == |events|
    requires c in Effect(h, e).clients
    ensures EntriesFrom(events + [e], Effect(h, e).clients[c].results)
  {
    if e.Complete? {
      assert c in h.clients by { FinishClients(h, e.job, e.value, e.now); }
      CompleteEntries(events, h, e, c);
    } else {
      assert Shrinks(h, Effect(h, e), c) by {
        if Fencing(e) { FenceShrinks(h, e, c); }
        else if e.Request? { RequestShrinks(h, e, c); }
        else { OthersShrink(h, e, c); }
      }
      ShrunkFrom(events, e, h, Effect(h, e), c);
    }
  }

  lemma {:induction false} EverythingFrom(events: seq<Event>)
    ensures AllFrom(events, Run(events))
  {
    if events != [] {
      var before, e := events[..|events| - 1], events[|events| - 1];
      EverythingFrom(before);
      SharedReadInvariant(before);
      InvIsReady(Run(before));
      assert before + [e] == events;
      JobsFromGrow(before, e, Run(before));
      forall c | c in Effect(Run(before), e).clients
        ensures EntriesFrom(events, Effect(Run(before), e).clients[c].results)
      {
        ResultsFromGrow(before, e, Run(before), c);
      }
    }
  }

  // A cache hit is exactly what a completed read returned: the same request, cacheable, on the same
  // checkout, completed at most 250 ms ago, and no mutation of that checkout began or ended, and
  // nothing invalidated its reads, since that read was requested.
  lemma CacheHitProvenance(events: seq<Event>, q: nat)
    requires q < |events| && events[q].Request? && events[q].client in Run(events[..q]).clients
    requires var Request(c, request, cacheable, aborted, now) := events[q];
             Answer(Run(events[..q]), c, request, cacheable, aborted, now).Hit?
    ensures var Request(c, request, cacheable, aborted, now) := events[q];
            var h := Run(events[..q]);
            var repository := h.clients[c].repository;
            var Hit(value, at, done) := Answer(h, c, request, cacheable, aborted, now);
            && at < done < q
            && events[at].Request? && events[at].cacheable && events[at].request == request
            && events[at].client in Run(events[..at]).clients
            && Run(events[..at]).clients[events[at].client].repository == repository
            && events[done].Complete? && events[done].job == at && events[done].value == Some(value)
            && now <= events[done].now + 250
            && forall i | at <= i < q :: !Fences(Run(events[..i]), events[i], repository)
  {
    var Request(c, request, cacheable, aborted, now) := events[q];
    var h := Run(events[..q]);
    var client := h.clients[c];
    EverythingFrom(events[..q]);
    var entry := client.results[Lookup(client.results, client.readEpoch, KeyOf(h, c, request, cacheable).value)];
    assert EntryFrom(events[..q], entry);
    assert events[..q][..entry.requestedAt] == events[..entry.requestedAt];
    forall i | entry.requestedAt <= i < q
      ensures !Fences(Run(events[..i]), events[i], client.repository)
    {
      if Fences(Run(events[..i]), events[i], client.repository) { ReadYourWrites(events, i, q); }
    }
  }

  // Whatever answers a request was itself requested, at the latest now, as the same read of the same checkout.
  lemma AnswersAreOfThisCheckout(events: seq<Event>, q: nat)
    requires q < |events| && events[q].Request? && events[q].client in Run(events[..q]).clients
    ensures var Request(c, request, cacheable, aborted, now) := events[q];
            var h := Run(events[..q]);
            var answer := Answer(h, c, request, cacheable, aborted, now);
            !answer.Refused? ==>
              var at := if answer.Hit? then answer.requestedAt else answer.job;
              && at <= q && events[at].Request? && events[at].request == request
              && events[at].client in Run(events[..at]).clients
              && Run(events[..at]).clients[events[at].client].repository == h.clients[c].repository
  {
    hide Run, Inv, JobsOk, SubscribersOk, OwnersOk, EpochsOk, OperationsOk, ResultsOk, Lookup;
    var Request(c, request, cacheable, aborted, now) := events[q];
    var h := Run(events[..q]);
    var answer := Answer(h, c, request, cacheable, aborted, now);
    if answer.Hit? {
      CacheHitProvenance(events, q);
    } else if answer.Joined? {
      var key := KeyOf(h, c, request, cacheable).value;
      SharedReadInvariant(events[..q]);
      SharedHasKey(h, key, q);
      EverythingFrom(events[..q]);
      assert JobFrom(events[..q], answer.job, key);
      assert events[..q][..answer.job] == events[..answer.job];
    } else if answer.Fresh? {
      SharedReadInvariant(events[..q]);
    }
  }

  lemma SharedHasKey(h: Hub, key: ShareKey, n: nat)
    requires Inv(h, n) && key in h.shared
    ensures h.shared[key] in h.jobs && h.jobs[h.shared[key]].key == Some(key)
  {}

  // ---- Settlement, abandonment and rebinding ----

  lemma StepKeepsSubscriber(h: Hub, e: Event, s: nat)
    requires Ready(h) && s in h.subscribers
    ensures var g := Effect(h, e);
            s in g.subscribers && h.subscribers[s].settled <= g.subscribers[s].settled
            && g.subscribers[s].(settled := h.subscribers[s].settled) == h.subscribers[s]
  {}

  // Every subscriber is pending exactly while its job holds it, and settles exactly once: the
  // count never passes one, never goes back, and is one as soon as the job has finished.
  lemma {:induction false} SubscribersSettleOnce(events: seq<Event>, n: nat, s: nat)
    requires n <= |events| && s in Run(events[..n]).subscribers
    ensures var early, late := Run(events[..n]), Run(events);
            && s in late.subscribers
            && early.subscribers[s].settled <= late.subscribers[s].settled <= 1
            && late.subscribers[s].job in late.jobs
            && (late.subscribers[s].settled == 0 <==>
                  s in late.jobs[late.subscribers[s].job].subscribers)
            && (late.jobs[late.subscribers[s].job].finished ==> late.subscribers[s].settled == 1)
  {
    SharedReadInvariant(events);
    var late := Run(events);
    if n == |events| {
      assert events[..n] == events;
      assert SubscriberOk(s, late.subscribers[s], late.jobs, late.clients.Keys);
    } else {
      var before := events[..|events| - 1];
      assert before[..n] == events[..n];
      SubscribersSettleOnce(before, n, s);
      SharedReadInvariant(before);
      InvIsReady(Run(before));
      StepKeepsSubscriber(Run(before), events[|events| - 1], s);
      assert SubscriberOk(s, late.subscribers[s], late.jobs, late.clients.Keys);
    }
  }

  // A read launches only from its place in the pool, while somebody waits for it and no mutation of its
  // checkout is in flight; one that meets a mutation gives its place back.
  lemma LaunchesMeetNoMutation(events: seq<Event>, n: nat, j: nat)
    requires n < |events| && j in Run(events[..n]).jobs && !Run(events[..n]).jobs[j].started
    ensures var h, g := Run(events[..n]), Run(events[..n + 1]);
      && j in g.jobs
      && (g.jobs[j].started ==>
            events[n] == Slot(j) && !Mutating(h.operations, h.jobs[j].repository) && h.jobs[j].subscribers != {})
      && (events[n] == Slot(j) && Mutating(h.operations, h.jobs[j].repository) ==>
            !g.jobs[j].started && !g.jobs[j].queued)
  {
    hide Mutating, JobsOk, SharedOk, OwnersOk, SubscribersOk, EpochsOk, ResultsOk, OperationsOk;
    SharedReadInvariant(events[..n]);
    InvIsReady(Run(events[..n]));
    StepKeepsJobs(Run(events[..n]), events[n], j);
    assert events[..n + 1][..n] == events[..n];
    if events[n] == Slot(j) && Mutating(Run(events[..n]).operations, Run(events[..n]).jobs[j].repository) {
      QueuedHasNotStarted(Run(events[..n]), events[n], j);
    }
  }

  lemma QueuedHasNotStarted(h: Hub, e: Event, j: nat)
    requires j in h.jobs && !h.jobs[j].started && e == Slot(j) && Mutating(h.operations, h.jobs[j].repository)
    ensures j in Step(h, e).jobs && !Step(h, e).jobs[j].started && !Step(h, e).jobs[j].queued
  {
    hide Mutating;
  }

  // A job abandoned before it started never launches.
  lemma {:induction false} AbandonedNeverLaunches(events: seq<Event>, n: nat, j: nat)
    requires n <= |events| && j in Run(events[..n]).jobs
    requires Run(events[..n]).jobs[j].finished && !Run(events[..n]).jobs[j].started
    ensures j in Run(events).jobs && Run(events).jobs[j].finished && !Run(events).jobs[j].started
  {
    if n == |events| {
      assert events[..n] == events;
    } else {
      var before := events[..|events| - 1];
      assert before[..n] == events[..n];
      AbandonedNeverLaunches(before, n, j);
      SharedReadInvariant(before);
      InvIsReady(Run(before));
      StepKeepsJobs(Run(before), events[|events| - 1], j);
    }
  }

  // Rebinding a client rejects its own subscribers and nobody else's: another owner keeps waiting,
  // on a job that is not aborted and changes only by losing the leavers.
  lemma RebindingIsIsolated(h: Hub, c: nat, repository: nat, s: nat)
    requires Inv(h, h.step) && c in h.clients && repository != h.clients[c].repository
    requires s in h.subscribers && h.subscribers[s].settled == 0
    ensures var g := UseRepository(h, c, repository);
            && s in g.subscribers
            && (h.subscribers[s].owner == c ==> g.subscribers[s].settled == 1)
            && (h.subscribers[s].owner != c ==>
                  var j := h.subscribers[s].job;
                  && g.subscribers[s] == h.subscribers[s]
                  && j in g.jobs && s in g.jobs[j].subscribers
                  && g.jobs[j].(subscribers := h.jobs[j].subscribers) == h.jobs[j])
  {
    hide UseRepository;
    RebindDelta(h, c, repository);
    assert SubscriberOk(s, h.subscribers[s], h.jobs, h.clients.Keys);
    if h.subscribers[s].owner != c {
      assert s in h.jobs[h.subscribers[s].job].subscribers - PendingOf(h, c);
    }
  }

  // A rebound client keeps nothing of its old checkout: no result and no job it waits on.
  lemma RebindingForgets(h: Hub, c: nat, repository: nat)
    requires Inv(h, h.step) && c in h.clients && repository != h.clients[c].repository
    ensures var client := UseRepository(h, c, repository).clients[c];
            client.readJobs == {} && client.results == [] && client.repository == repository
  {}

  ghost predicate Bound(clients: map<nat, Client>, c: nat, repository: nat) {
    c in clients && clients[c].repository == repository
  }

  lemma FencesKeepBinding(h: Hub, d: nat, op: nat, next: nat, c: nat, repository: nat)
    requires d in h.clients && Bound(h.clients, c, repository)
    ensures Bound(BeginMutation(h, d).clients, c, repository) && Bound(InvalidateReads(h, d).clients, c, repository)
    ensures Bound(CancelOwn(InvalidateReads(h, d), d).clients, c, repository)
    ensures d != c ==> Bound(UseRepository(h, d, next).clients, c, repository)
    ensures op in h.operations && h.operations[op].client in h.clients ==>
              Bound(SettleMutation(h, op).clients, c, repository)
  {
    hide PendingOf, DepartAll, SettleAll, StillShared, StillRead;
  }

  lemma FencingKeepsBinding(h: Hub, e: Event, c: nat)
    requires Fencing(e) && c in h.clients && !(e.Rebind? && e.client == c)
    ensures c in Effect(h, e).clients && Effect(h, e).clients[c].repository == h.clients[c].repository
  {
    hide BeginMutation, SettleMutation, UseRepository, CancelOwn, InvalidateReads;
    var repository := h.clients[c].repository;
    assert Bound(h.clients, c, repository);
    match e
    case Begin(d) => if d in h.clients { FencesKeepBinding(h, d, 0, 0, c, repository); }
    case Settle(op) => FencesKeepBinding(h, c, op, 0, c, repository);
    case Invalidate(d) => if d in h.clients { FencesKeepBinding(h, d, 0, 0, c, repository); }
    case Rebind(d, next) => if d in h.clients { FencesKeepBinding(h, d, 0, next, c, repository); }
    case Dispose(d) => if d in h.clients { FencesKeepBinding(h, d, 0, 0, c, repository); }
  }

  lemma ReadingKeepsBinding(h: Hub, e: Event, c: nat)
    requires !Fencing(e) && c in h.clients
    ensures c in Effect(h, e).clients && Effect(h, e).clients[c].repository == h.clients[c].repository
  {
    hide Mutating, DepartAll, SettleAll, StillShared, StillRead, Unshare, Store, Lookup, MayCacheFor, JobFor, Share,
         KeyOf, WithoutStale;
  }

  // A client reads the checkout it was bound to until it is bound to another one.
  lemma {:induction false} BindingStays(events: seq<Event>, i: nat, c: nat)
    requires i <= |events| && c in Run(events[..i]).clients
    requires forall k | i <= k < |events| :: !(events[k].Rebind? && events[k].client == c)
    ensures c in Run(events).clients && Run(events).clients[c].repository == Run(events[..i]).clients[c].repository
  {
    hide Effect;
    assert events[..|events|] == events;
    if i < |events| {
      var front, last := events[..|events| - 1], events[|events| - 1];
      assert front[..i] == events[..i];
      BindingStays(front, i, c);
      if Fencing(last) { FencingKeepsBinding(Run(front), last, c); } else { ReadingKeepsBinding(Run(front), last, c); }
    }
  }
}
