// The process-wide priority pool of apps/vscode/src/cli/client.ts: four slots, one of which no
// background read may take, and promotion of a background read that has queued for 30 seconds.
// Clock readings are inputs. A ticket is identified by a number, as the source does by reference.
module ReadPools {

  const CLI_READ_CONCURRENCY: nat := 4
  const BACKGROUND_PROMOTION_MS: int := 30_000

  datatype Priority = Interactive | Normal | Background

  function Rank(p: Priority): nat {
    match p
    case Interactive => 0
    case Normal => 1
    case Background => 2
  }

  datatype Ticket = Ticket(id: nat, priority: Priority, enqueuedAt: int, cancelled: bool)

  // One dispatch: the ticket and the effective priority it was chosen with.
  datatype Dispatched = Dispatched(id: nat, chosenAs: Priority)

  // `running` maps each running ticket to the flag its completion closure captured. `log` and `now`
  // (the last clock reading) are history: nothing in the pool reads them.
  datatype Pool = Pool(queue: seq<Ticket>, nextId: nat, running: map<nat, bool>,
                       runningReads: int, runningBackground: int, log: seq<Dispatched>, now: int)

  const EMPTY_POOL := Pool([], 0, map[], 0, 0, [], 0)

  function Effective(ticket: Ticket, now: int): Priority {
    if ticket.priority == Background && now - ticket.enqueuedAt >= BACKGROUND_PROMOTION_MS
    then Normal else ticket.priority
  }

  predicate Eligible(ticket: Ticket, now: int, backgroundSlotFree: bool) {
    Effective(ticket, now) != Background || backgroundSlotFree
  }

  // What the search has to return: the earliest queued ticket of least effective rank among the
  // eligible ones, or -1 when there is none.
  ghost predicate IsChoice(queue: seq<Ticket>, now: int, backgroundSlotFree: bool, choice: int) {
    && -1 <= choice < |queue|
    && (choice == -1 ==> forall i | 0 <= i < |queue| :: !Eligible(queue[i], now, backgroundSlotFree))
    && (choice >= 0 ==>
          && Eligible(queue[choice], now, backgroundSlotFree)
          && forall i | 0 <= i < |queue| && i != choice && Eligible(queue[i], now, backgroundSlotFree) ::
            var rank, least := Rank(Effective(queue[i], now)), Rank(Effective(queue[choice], now));
            least < rank || (least == rank && choice < i))
  }

  lemma {:induction false} ChoiceExists(queue: seq<Ticket>, now: int, backgroundSlotFree: bool)
    ensures exists choice :: IsChoice(queue, now, backgroundSlotFree, choice)
  {
    if queue == [] {
      assert IsChoice(queue, now, backgroundSlotFree, -1);
    } else {
      var last := |queue| - 1;
      ChoiceExists(queue[..last], now, backgroundSlotFree);
      var best :| IsChoice(queue[..last], now, backgroundSlotFree, best);
      assert forall i | 0 <= i < last :: queue[..last][i] == queue[i];
      var takesLast := Eligible(queue[last], now, backgroundSlotFree)
        && (best < 0 || Rank(Effective(queue[last], now)) < Rank(Effective(queue[best], now)));
      assert IsChoice(queue, now, backgroundSlotFree, if takesLast then last else best);
    }
  }

  lemma ChoiceIsUnique(queue: seq<Ticket>, now: int, backgroundSlotFree: bool, a: int, b: int)
    requires IsChoice(queue, now, backgroundSlotFree, a) && IsChoice(queue, now, backgroundSlotFree, b)
    ensures a == b
  {}

  ghost function Choose(queue: seq<Ticket>, now: int, backgroundSlotFree: bool): (choice: int)
    ensures IsChoice(queue, now, backgroundSlotFree, choice)
  {
    ChoiceExists(queue, now, backgroundSlotFree);
    var choice :| IsChoice(queue, now, backgroundSlotFree, choice);
    choice
  }

  // ---- The choice in terms of what the tickets were queued with ----

  // Waiting for its turn among the reads of the foreground: a normal read, or a background read that has
  // waited for half a minute.
  predicate Due(ticket: Ticket, now: int) {
    ticket.priority == Normal || (ticket.priority == Background && now - ticket.enqueuedAt >= 30_000)
  }

  // The earliest interactive read if there is one, else the earliest that is due, else the earliest of all if
  // a background read may run.
  ghost predicate Serves(queue: seq<Ticket>, now: int, backgroundSlotFree: bool, choice: int) {
    if exists i :: 0 <= i < |queue| && queue[i].priority == Interactive then
      && 0 <= choice < |queue| && queue[choice].priority == Interactive
      && forall i | 0 <= i < choice :: queue[i].priority != Interactive
    else if exists i :: 0 <= i < |queue| && Due(queue[i], now) then
      && 0 <= choice < |queue| && Due(queue[choice], now)
      && forall i | 0 <= i < choice :: !Due(queue[i], now)
    else choice == if backgroundSlotFree && queue != [] then 0 else -1
  }

  lemma ChoiceServes(queue: seq<Ticket>, now: int, backgroundSlotFree: bool, choice: int)
    ensures IsChoice(queue, now, backgroundSlotFree, choice) <==> Serves(queue, now, backgroundSlotFree, choice)
  {
    if Serves(queue, now, backgroundSlotFree, choice) { ServedIsChosen(queue, now, backgroundSlotFree, choice); }
    if IsChoice(queue, now, backgroundSlotFree, choice) {
      var served := ServedOne(queue, now, backgroundSlotFree);
      ServedIsChosen(queue, now, backgroundSlotFree, served);
      ChoiceIsUnique(queue, now, backgroundSlotFree, choice, served);
    }
  }

  lemma ServedIsChosen(queue: seq<Ticket>, now: int, backgroundSlotFree: bool, choice: int)
    requires Serves(queue, now, backgroundSlotFree, choice)
    ensures IsChoice(queue, now, backgroundSlotFree, choice)
  {}

  lemma {:induction false} ServedOne(queue: seq<Ticket>, now: int, backgroundSlotFree: bool) returns (choice: int)
    ensures Serves(queue, now, backgroundSlotFree, choice)
  {
    if queue == [] {
      choice := -1;
    } else {
      var last := |queue| - 1;
      choice := ServedOne(queue[..last], now, backgroundSlotFree);
      assert forall i | 0 <= i < last :: queue[..last][i] == queue[i];
      if exists i :: 0 <= i < last && queue[i].priority == Interactive {
      } else if queue[last].priority == Interactive {
        choice := last;
      } else if exists i :: 0 <= i < last && Due(queue[i], now) {
      } else if Due(queue[last], now) {
        choice := last;
      } else {
        choice := if backgroundSlotFree then 0 else -1;
      }
    }
  }

  function Without(queue: seq<Ticket>, index: nat): (rest: seq<Ticket>)
    requires index < |queue|
    ensures |rest| == |queue| - 1
    ensures forall i | 0 <= i < |rest| :: rest[i] == queue[if i < index then i else i + 1]
  {
    queue[..index] + queue[index + 1..]
  }

  function IndexFrom(queue: seq<Ticket>, id: nat, from: nat): (index: int)
    requires from <= |queue|
    ensures index == -1 || (from <= index < |queue| && queue[index].id == id)
    ensures forall i | from <= i < (if index < 0 then |queue| else index) :: queue[i].id != id
    decreases |queue| - from
  {
    if from == |queue| then -1
    else if queue[from].id == id then from
    else IndexFrom(queue, id, from + 1)
  }

  function IndexOf(queue: seq<Ticket>, id: nat): int {
    IndexFrom(queue, id, 0)
  }

  // ---- The pool as a state machine ----

  // Dispatch carries the two clock readings that decide one iteration of the drain loop.
  datatype Event =
    | Enqueue(priority: Priority, at: int)
    | Raise(id: nat, priority: Priority)
    | Cancel(id: nat)
    | Dispatch(chosenAt: int, startedAt: int)
    | Finish(id: nat)

  predicate Closed(p: Pool) {
    p.runningReads >= CLI_READ_CONCURRENCY || p.queue == []
  }

  // The index the next iteration takes, or -1: the pool is full, or nothing may run.
  ghost function Pick(p: Pool, at: int): (choice: int)
    ensures -1 <= choice < |p.queue|
  {
    if Closed(p) then -1 else Choose(p.queue, at, p.runningBackground < CLI_READ_CONCURRENCY - 1)
  }

  ghost function DispatchOne(p: Pool, chosenAt: int, startedAt: int): Pool {
    var choice := Pick(p, chosenAt);
    var starts := choice >= 0 && !p.queue[choice].cancelled;
    var background := starts && Effective(p.queue[choice], startedAt) == Background;
    Pool(if choice < 0 then p.queue else Without(p.queue, choice),
         p.nextId,
         if starts then p.running[p.queue[choice].id := background] else p.running,
         p.runningReads + (if starts then 1 else 0),
         p.runningBackground + (if background then 1 else 0),
         p.log + (if starts then [Dispatched(p.queue[choice].id, Effective(p.queue[choice], chosenAt))] else []),
         if Closed(p) then p.now else if choice < 0 then chosenAt else startedAt)
  }

  ghost function Step(p: Pool, e: Event): Pool {
    match e
    case Enqueue(priority, at) =>
      p.(queue := p.queue + [Ticket(p.nextId, priority, at, false)], nextId := p.nextId + 1, now := at)
    case Raise(id, priority) => p.(queue := Raised(p.queue, id, priority))
    case Cancel(id) => p.(queue := Dropped(p.queue, id))
    case Dispatch(chosenAt, startedAt) => DispatchOne(p, chosenAt, startedAt)
    case Finish(id) =>
      p.(running := p.running - {id},
         runningReads := p.runningReads - (if id in p.running then 1 else 0),
         runningBackground := p.runningBackground - (if id in p.running && p.running[id] then 1 else 0))
  }

  // A ticket only ever rises.
  function Raised(queue: seq<Ticket>, id: nat, priority: Priority): seq<Ticket> {
    var i := IndexOf(queue, id);
    if i < 0 || Rank(priority) >= Rank(queue[i].priority) then queue
    else queue[i := queue[i].(priority := priority)]
  }

  function Dropped(queue: seq<Ticket>, id: nat): seq<Ticket> {
    var i := IndexOf(queue, id);
    if i < 0 then queue else Without(queue, i)
  }

  // The clock never steps back.
  predicate Timely(p: Pool, e: Event) {
    match e
    case Enqueue(_, at) => p.now <= at
    case Dispatch(chosenAt, startedAt) => p.now <= chosenAt <= startedAt
    case _ => true
  }

  ghost function Run(p: Pool, events: seq<Event>): Pool {
    if events == [] then p else Step(Run(p, events[..|events| - 1]), events[|events| - 1])
  }

  ghost predicate TimelyRun(p: Pool, events: seq<Event>) {
    events == [] ||
    (TimelyRun(p, events[..|events| - 1]) && Timely(Run(p, events[..|events| - 1]), events[|events| - 1]))
  }

  // ---- Accounting ----

  function BackgroundIds(running: map<nat, bool>): set<nat> {
    set id | id in running && running[id]
  }

  ghost predicate Counted(p: Pool) {
    && p.runningReads == |p.running| <= CLI_READ_CONCURRENCY
    && p.runningBackground == |BackgroundIds(p.running)|
  }

  ghost predicate WellQueued(p: Pool) {
    && (forall i, j | 0 <= i < j < |p.queue| :: p.queue[i].id != p.queue[j].id)
    && (forall i | 0 <= i < |p.queue| ::
          && p.queue[i].id < p.nextId && p.queue[i].id !in p.running && !p.queue[i].cancelled)
    && (forall id | id in p.running :: id < p.nextId)
  }

  // The slot reserved for the foreground is not given away.
  ghost predicate Reserved(p: Pool) {
    p.runningBackground <= CLI_READ_CONCURRENCY - 1
  }

  ghost predicate Inv(p: Pool) {
    WellQueued(p) && Counted(p) && Reserved(p)
  }

  // The two readings of one dispatch do not step back.
  predicate Steady(e: Event) {
    e.Dispatch? ==> e.chosenAt <= e.startedAt
  }

  // Promotion only moves one way, so the second reading of a dispatch cannot turn a ticket chosen
  // as foreground back into a background one.
  lemma PromotionIsPermanent(ticket: Ticket, early: int, late: int)
    requires early <= late && Effective(ticket, early) != Background
    ensures Effective(ticket, late) != Background
  {}

  lemma RemovalKeepsQueue(queue: seq<Ticket>, choice: nat, nextId: nat, running: map<nat, bool>)
    requires choice < |queue|
    requires forall i, j | 0 <= i < j < |queue| :: queue[i].id != queue[j].id
    requires forall i | 0 <= i < |queue| :: queue[i].id < nextId && queue[i].id !in running && !queue[i].cancelled
    ensures var rest := Without(queue, choice);
      && (forall i, j | 0 <= i < j < |rest| :: rest[i].id != rest[j].id)
      && (forall i | 0 <= i < |rest| ::
            rest[i].id < nextId && rest[i].id !in running && rest[i].id != queue[choice].id && !rest[i].cancelled)
  {
    var rest := Without(queue, choice);
    assert forall i | 0 <= i < |rest| :: rest[i] == queue[if i < choice then i else i + 1];
  }

  lemma DispatchKeepsQueue(p: Pool, chosenAt: int, startedAt: int)
    requires WellQueued(p)
    ensures WellQueued(DispatchOne(p, chosenAt, startedAt))
  {
    hide Without;
    var choice := Pick(p, chosenAt);
    if choice >= 0 { RemovalKeepsQueue(p.queue, choice, p.nextId, p.running); }
  }

  lemma DispatchKeepsCounts(p: Pool, chosenAt: int, startedAt: int)
    requires WellQueued(p) && Counted(p)
    ensures Counted(DispatchOne(p, chosenAt, startedAt))
  {
    var choice := Pick(p, chosenAt);
    if choice >= 0 {
      StartCounts(p.running, p.queue[choice].id, Effective(p.queue[choice], startedAt) == Background);
    }
  }

  // One dispatch in terms of what the tickets were queued with: which is taken, whether it counts as a
  // background read, and that it takes a slot.
  lemma DispatchServes(p: Pool, chosenAt: int, startedAt: int)
    requires WellQueued(p) && p.runningReads < 4 && p.queue != []
    ensures var choice, q := Pick(p, chosenAt), Step(p, Dispatch(chosenAt, startedAt));
      && Serves(p.queue, chosenAt, p.runningBackground < 3, choice)
      && if choice < 0 then q.queue == p.queue && q.running == p.running
         else var ticket := p.queue[choice];
              && q.queue == p.queue[..choice] + p.queue[choice + 1..] && q.runningReads == p.runningReads + 1
              && q.running == p.running[ticket.id :=
                   ticket.priority == Background && startedAt - ticket.enqueuedAt < 30_000]
  {
    hide IsChoice, Serves;
    PickIsChoice(p, chosenAt);
    ChoiceServes(p.queue, chosenAt, p.runningBackground < 3, Pick(p, chosenAt));
  }

  lemma PickIsChoice(p: Pool, at: int)
    requires p.runningReads < 4 && p.queue != []
    ensures IsChoice(p.queue, at, p.runningBackground < 3, Pick(p, at))
  {
    hide IsChoice;
  }

  // Four running reads, or an empty queue, let nothing start.
  lemma NothingStarts(p: Pool, chosenAt: int, startedAt: int)
    requires p.runningReads >= 4 || p.queue == []
    ensures Step(p, Dispatch(chosenAt, startedAt)) == p
  {}

  // A dispatch gives the reserved slot away exactly if it was the last one free of background reads and
  // the ticket, chosen as foreground, counts as background when it is started; then the clock stepped
  // back between the two readings.
  lemma ReservedSlotIsLostExactly(p: Pool, chosenAt: int, startedAt: int)
    requires WellQueued(p) && Reserved(p)
    ensures var choice := Pick(p, chosenAt);
      && (!Reserved(DispatchOne(p, chosenAt, startedAt)) <==>
            choice >= 0 && p.runningBackground == CLI_READ_CONCURRENCY - 1
            && Effective(p.queue[choice], startedAt) == Background)
      && (!Reserved(DispatchOne(p, chosenAt, startedAt)) ==> startedAt < chosenAt)
  {}

  lemma StartCounts(running: map<nat, bool>, id: nat, background: bool)
    requires id !in running
    ensures |running[id := background]| == |running| + 1
    ensures |BackgroundIds(running[id := background])| == |BackgroundIds(running)| + (if background then 1 else 0)
  {
    var after := running[id := background];
    assert |after| == |after.Keys| && after.Keys == running.Keys + {id};
    if background {
      assert BackgroundIds(after) == BackgroundIds(running) + {id};
    } else {
      assert BackgroundIds(after) == BackgroundIds(running);
    }
  }

  lemma FinishKeepsCounts(p: Pool, id: nat)
    requires WellQueued(p) && Counted(p)
    ensures WellQueued(Step(p, Finish(id))) && Counted(Step(p, Finish(id)))
    ensures Reserved(p) ==> Reserved(Step(p, Finish(id)))
  {
    var q := Step(p, Finish(id));
    assert |q.running| == |q.running.Keys| && q.running.Keys == p.running.Keys - {id};
    if id in p.running && p.running[id] {
      assert BackgroundIds(q.running) == BackgroundIds(p.running) - {id};
    } else {
      assert BackgroundIds(q.running) == BackgroundIds(p.running);
    }
  }

  lemma RaisingKeepsQueue(p: Pool, id: nat, priority: Priority)
    requires WellQueued(p)
    ensures WellQueued(p.(queue := Raised(p.queue, id, priority)))
  {}

  lemma DroppingKeepsQueue(p: Pool, id: nat)
    requires WellQueued(p)
    ensures WellQueued(p.(queue := Dropped(p.queue, id)))
  {
    hide Without;
    var i := IndexOf(p.queue, id);
    if i >= 0 { RemovalKeepsQueue(p.queue, i, p.nextId, p.running); }
  }

  lemma StepKeepsCounts(p: Pool, e: Event)
    requires WellQueued(p) && Counted(p)
    ensures WellQueued(Step(p, e)) && Counted(Step(p, e))
    ensures Reserved(p) && Steady(e) ==> Reserved(Step(p, e))
  {
    match e
    case Dispatch(chosenAt, startedAt) =>
      DispatchKeepsQueue(p, chosenAt, startedAt);
      DispatchKeepsCounts(p, chosenAt, startedAt);
      if Reserved(p) { ReservedSlotIsLostExactly(p, chosenAt, startedAt); }
    case Finish(id) => FinishKeepsCounts(p, id);
    case Raise(id, priority) => RaisingKeepsQueue(p, id, priority);
    case Cancel(id) => DroppingKeepsQueue(p, id);
    case Enqueue(_, _) =>
  }

  lemma StepKeepsInv(p: Pool, e: Event)
    requires Inv(p) && Timely(p, e)
    ensures Inv(Step(p, e))
  {
    StepKeepsCounts(p, e);
  }

  lemma {:induction false} RunKeepsCounts(p: Pool, events: seq<Event>)
    requires WellQueued(p) && Counted(p)
    ensures WellQueued(Run(p, events)) && Counted(Run(p, events))
    ensures Reserved(p) && (forall i | 0 <= i < |events| :: Steady(events[i])) ==> Reserved(Run(p, events))
  {
    if events != [] {
      var before := events[..|events| - 1];
      RunKeepsCounts(p, before);
      StepKeepsCounts(Run(p, before), events[|events| - 1]);
      assert forall i | 0 <= i < |before| :: before[i] == events[i];
    }
  }

  // Over every run, whatever the clock does, the counters are exactly the tickets running, at most four
  // run, and no queued ticket is running or cancelled. If no dispatch sees the clock step back between
  // its two readings, at most three run as background.
  lemma PoolAccounting(events: seq<Event>)
    ensures WellQueued(Run(EMPTY_POOL, events)) && Counted(Run(EMPTY_POOL, events))
    ensures (forall i | 0 <= i < |events| :: Steady(events[i])) ==> Reserved(Run(EMPTY_POOL, events))
  {
    assert BackgroundIds(map[]) == {};
    RunKeepsCounts(EMPTY_POOL, events);
  }

  // Four background tickets queued at time 0; `free` of them are still queued.
  function Backlog(started: nat): (queue: seq<Ticket>)
    requires started <= 4
  {
    seq(4 - started, i requires 0 <= i < 4 - started => Ticket(started + i, Background, 0, false))
  }

  lemma DispatchBacklogHead(p: Pool, started: nat, chosenAt: int, startedAt: int)
    requires started < 4 && p.queue == Backlog(started) && p.runningReads == started
    requires p.runningBackground < 3 || chosenAt >= BACKGROUND_PROMOTION_MS
    requires startedAt < BACKGROUND_PROMOTION_MS
    ensures var q := DispatchOne(p, chosenAt, startedAt);
            q.queue == Backlog(started + 1) && q.runningReads == started + 1
            && q.runningBackground == p.runningBackground + 1 && q.now == startedAt
  {
    ChoiceIsUnique(p.queue, chosenAt, p.runningBackground < 3, Pick(p, chosenAt), 0);
    assert Without(p.queue, 0) == Backlog(started + 1);
  }

  lemma FourQueued()
    ensures Run(EMPTY_POOL, seq(4, _ => Enqueue(Background, 0))).queue == Backlog(0)
    ensures var p := Run(EMPTY_POOL, seq(4, _ => Enqueue(Background, 0)));
            p.runningReads == 0 && p.runningBackground == 0 && p.now == 0
  {
    var e := Enqueue(Background, 0);
    RunStep(EMPTY_POOL, [], e);
    RunStep(EMPTY_POOL, [] + [e], e);
    RunStep(EMPTY_POOL, [] + [e] + [e], e);
    RunStep(EMPTY_POOL, [] + [e] + [e] + [e], e);
    assert seq(4, _ => Enqueue(Background, 0)) == [] + [e] + [e] + [e] + [e];
  }

  // The hypothesis is needed: a clock that steps back between the two readings of one dispatch
  // puts a fourth background read in the slot reserved for the foreground.
  lemma ClockSteppingBackFillsTheReservedSlot() returns (events: seq<Event>)
    ensures !TimelyRun(EMPTY_POOL, events) && Run(EMPTY_POOL, events).runningBackground == 4
  {
    FourQueued();
    events := BacklogDispatched(seq(4, _ => Enqueue(Background, 0)));
  }

  lemma BacklogDispatched(queued: seq<Event>) returns (events: seq<Event>)
    requires var p := Run(EMPTY_POOL, queued);
             p.queue == Backlog(0) && p.runningReads == 0 == p.runningBackground
    ensures !TimelyRun(EMPTY_POOL, events) && Run(EMPTY_POOL, events).runningBackground == 4
  {
    var steady, back := Dispatch(0, 0), Dispatch(30_000, 29_999);
    var p1 := StepOfBacklog(Run(EMPTY_POOL, queued), queued, 0, steady);
    var p2 := StepOfBacklog(p1, queued + [steady], 1, steady);
    var p3 := StepOfBacklog(p2, queued + [steady] + [steady], 2, steady);
    var before := queued + [steady] + [steady] + [steady];
    var p4 := StepOfBacklog(p3, before, 3, back);
    RunStep(EMPTY_POOL, before, back);
    events := before + [back];
  }

  lemma StepOfBacklog(p: Pool, events: seq<Event>, started: nat, e: Event) returns (q: Pool)
    requires p == Run(EMPTY_POOL, events) && e.Dispatch?
    requires started < 4 && p.queue == Backlog(started) && p.runningReads == started == p.runningBackground
    requires started < 3 || e.chosenAt >= BACKGROUND_PROMOTION_MS
    requires e.startedAt < BACKGROUND_PROMOTION_MS
    ensures q == Run(EMPTY_POOL, events + [e]) == Step(p, e)
    ensures q.queue == Backlog(started + 1) && q.runningReads == started + 1 == q.runningBackground
    ensures q.now == e.startedAt
  {
    RunStep(EMPTY_POOL, events, e);
    DispatchBacklogHead(p, started, e.chosenAt, e.startedAt);
    q := Step(p, e);
  }

  lemma RunStep(p: Pool, events: seq<Event>, e: Event)
    ensures Run(p, events + [e]) == Step(Run(p, events), e)
    ensures TimelyRun(p, events + [e]) <==> TimelyRun(p, events) && Timely(Run(p, events), e)
  {}

  // ---- Bounded overtaking ----

  function Overtakes(log: seq<Dispatched>): nat {
    if log == [] then 0
    else Overtakes(log[..|log| - 1]) + (if log[|log| - 1].chosenAs == Interactive then 0 else 1)
  }

  // Ticket `id` is queued and no longer counts as background.
  predicate Waiting(p: Pool, id: nat) {
    var i := IndexOf(p.queue, id);
    i >= 0 && Effective(p.queue[i], p.now) != Background
  }

  lemma IndexIs(queue: seq<Ticket>, id: nat, i: nat)
    requires i < |queue| && queue[i].id == id
    requires forall a, b | 0 <= a < b < |queue| :: queue[a].id != queue[b].id
    ensures IndexOf(queue, id) == i
  {}

  lemma RemovedIsGone(queue: seq<Ticket>, i: nat)
    requires i < |queue|
    requires forall a, b | 0 <= a < b < |queue| :: queue[a].id != queue[b].id
    ensures IndexOf(Without(queue, i), queue[i].id) == -1
  {}

  lemma PassedOver(queue: seq<Ticket>, now: int, free: bool, choice: int, i: nat)
    requires IsChoice(queue, now, free, choice) && choice >= 0
    requires i < |queue| && i != choice && Effective(queue[i], now) != Background
    ensures choice < i || Effective(queue[choice], now) == Interactive
    ensures queue[i].priority == Interactive ==> choice < i
  {}

  lemma DispatchOvertakes(p: Pool, chosenAt: int, startedAt: int, id: nat)
    requires Inv(p) && p.now <= chosenAt <= startedAt && Waiting(p, id)
    requires IndexOf(DispatchOne(p, chosenAt, startedAt).queue, id) >= 0
    ensures var q := DispatchOne(p, chosenAt, startedAt);
            var i, j := IndexOf(p.queue, id), IndexOf(q.queue, id);
            && Waiting(q, id) && q.queue[j] == p.queue[i]
            && Overtakes(q.log) + j <= Overtakes(p.log) + i
            && (p.queue[i].priority == Interactive ==> |q.log| + j <= |p.log| + i)
  {
    var q := DispatchOne(p, chosenAt, startedAt);
    var i := IndexOf(p.queue, id);
    PromotionIsPermanent(p.queue[i], p.now, chosenAt);
    PromotionIsPermanent(p.queue[i], p.now, startedAt);
    var choice := Pick(p, chosenAt);
    if choice >= 0 {
      RemovedIsGone(p.queue, choice);
      PassedOver(p.queue, chosenAt, p.runningBackground < CLI_READ_CONCURRENCY - 1, choice, i);
      var j := if i < choice then i else i - 1;
      assert q.queue[j] == p.queue[i];
      IndexIs(q.queue, id, j) by { DispatchKeepsQueue(p, chosenAt, startedAt); }
      assert q.log[..|p.log|] == p.log;
    } else {
      assert q.log == p.log;
    }
  }

  lemma RaiseOvertakes(p: Pool, raised: nat, priority: Priority, id: nat)
    requires Inv(p) && Waiting(p, id)
    ensures var q := Step(p, Raise(raised, priority));
            && IndexOf(q.queue, id) == IndexOf(p.queue, id) && Waiting(q, id)
            && (p.queue[IndexOf(p.queue, id)].priority == Interactive ==>
                  q.queue[IndexOf(p.queue, id)].priority == Interactive)
  {
    var q := Step(p, Raise(raised, priority));
    IndexIs(q.queue, id, IndexOf(p.queue, id));
  }

  lemma CancelOvertakes(p: Pool, other: nat, id: nat)
    requires Inv(p) && Waiting(p, id) && IndexOf(Step(p, Cancel(other)).queue, id) >= 0
    ensures var q := Step(p, Cancel(other));
            var i, j := IndexOf(p.queue, id), IndexOf(q.queue, id);
            j <= i && q.queue[j] == p.queue[i] && q.log == p.log && q.now == p.now
  {
    hide IndexFrom, Without;
    var i, gone := IndexOf(p.queue, id), IndexOf(p.queue, other);
    if gone >= 0 {
      RemovedIsGone(p.queue, gone);
      DroppingKeepsQueue(p, other);
      IndexIs(Step(p, Cancel(other)).queue, id, if i < gone then i else i - 1);
    }
  }

  lemma EnqueueOvertakes(p: Pool, priority: Priority, at: int, id: nat)
    requires Inv(p) && Waiting(p, id) && p.now <= at
    ensures var q := Step(p, Enqueue(priority, at));
            IndexOf(q.queue, id) == IndexOf(p.queue, id) && Waiting(q, id)
  {
    var i := IndexOf(p.queue, id);
    IndexIs(Step(p, Enqueue(priority, at)).queue, id, i);
    PromotionIsPermanent(p.queue[i], p.now, at);
  }

  lemma StepOvertakes(p: Pool, e: Event, id: nat)
    requires Inv(p) && Timely(p, e) && Waiting(p, id)
    requires IndexOf(Step(p, e).queue, id) >= 0
    ensures var q := Step(p, e);
            var i, j := IndexOf(p.queue, id), IndexOf(q.queue, id);
            && Waiting(q, id)
            && Overtakes(q.log) + j <= Overtakes(p.log) + i
            && (p.queue[i].priority == Interactive ==>
                  q.queue[j].priority == Interactive && |q.log| + j <= |p.log| + i)
  {
    match e
    case Dispatch(chosenAt, startedAt) => DispatchOvertakes(p, chosenAt, startedAt, id);
    case Raise(raised, priority) => RaiseOvertakes(p, raised, priority, id);
    case Cancel(other) => CancelOvertakes(p, other, id);
    case Enqueue(priority, at) => EnqueueOvertakes(p, priority, at, id);
    case Finish(_) =>
  }

  // While a normal, interactive or promoted ticket waits, every non-interactive read dispatched
  // was ahead of it in the queue, and an interactive ticket is passed by nothing behind it: for any
  // interleaving of queueing, raising, cancelling, dispatching and finishing.
  lemma {:induction false} BoundedOvertaking(p: Pool, events: seq<Event>, id: nat)
    requires Inv(p) && Waiting(p, id) && TimelyRun(p, events)
    requires forall n | 0 <= n <= |events| :: IndexOf(Run(p, events[..n]).queue, id) >= 0
    ensures Inv(Run(p, events)) && Waiting(Run(p, events), id)
    ensures var q := Run(p, events);
            var i, j := IndexOf(p.queue, id), IndexOf(q.queue, id);
            && Overtakes(q.log) + j <= Overtakes(p.log) + i
            && (p.queue[i].priority == Interactive ==>
                  q.queue[j].priority == Interactive && |q.log| + j <= |p.log| + i)
  {
    if events != [] {
      var before := events[..|events| - 1];
      assert forall n | 0 <= n <= |before| :: before[..n] == events[..n];
      BoundedOvertaking(p, before, id);
      assert events[..|events|] == events;
      StepKeepsInv(Run(p, before), events[|events| - 1]);
      StepOvertakes(Run(p, before), events[|events| - 1], id);
    }
  }

  // ---- Draining ----

  // `clock(k)` is the k-th reading. The result carries the number of readings used.
  ghost function Drain(p: Pool, clock: nat -> int, k: nat): Pool
    decreases |p.queue|
  {
    if Closed(p) then p
    else if Pick(p, clock(k)) < 0 then DispatchOne(p, clock(k), clock(k + 1))
    else Drain(DispatchOne(p, clock(k), clock(k + 1)), clock, NextReading(p, clock, k))
  }

  // A dispatch reads the clock three times; dropping a cancelled ticket reads it once.
  ghost function NextReading(p: Pool, clock: nat -> int, k: nat): nat {
    var choice := Pick(p, clock(k));
    if choice >= 0 && p.queue[choice].cancelled then k + 1 else k + 3
  }

  ghost predicate Monotone(clock: nat -> int) {
    forall i: nat, j: nat | i <= j :: clock(i) <= clock(j)
  }

  ghost function DrainEvents(p: Pool, clock: nat -> int, k: nat): (events: seq<Event>)
    decreases |p.queue|
  {
    if Closed(p) then []
    else if Pick(p, clock(k)) < 0 then [Dispatch(clock(k), clock(k + 1))]
    else [Dispatch(clock(k), clock(k + 1))]
         + DrainEvents(DispatchOne(p, clock(k), clock(k + 1)), clock, NextReading(p, clock, k))
  }

  lemma RunNothing(p: Pool)
    ensures Run(p, []) == p && TimelyRun(p, [])
  {}

  lemma {:induction false} RunConcat(p: Pool, first: seq<Event>, rest: seq<Event>)
    ensures Run(p, first + rest) == Run(Run(p, first), rest)
    ensures TimelyRun(p, first + rest) <==> TimelyRun(p, first) && TimelyRun(Run(p, first), rest)
    decreases |rest|
  {
    hide Run, TimelyRun, Step, Timely;
    if rest == [] {
      assert first + rest == first;
      RunNothing(Run(p, first));
    } else {
      var before, last := rest[..|rest| - 1], rest[|rest| - 1];
      RunConcat(p, first, before);
      RunStep(p, first + before, last);
      RunStep(Run(p, first), before, last);
      assert rest == before + [last];
      assert first + rest == first + before + [last];
    }
  }

  lemma OneStep(p: Pool, e: Event)
    ensures Run(p, [e]) == Step(p, e) && (TimelyRun(p, [e]) <==> Timely(p, e))
  {}

  lemma RunCons(p: Pool, e: Event, rest: seq<Event>)
    ensures Run(p, [e] + rest) == Run(Step(p, e), rest)
    ensures TimelyRun(p, [e] + rest) <==> Timely(p, e) && TimelyRun(Step(p, e), rest)
  {
    OneStep(p, e);
    RunConcat(p, [e], rest);
  }

  // One call of the drain loop is a run of dispatches, whatever the clock does, so every run theorem
  // covers it; on a clock that never steps back it is a timely run.
  lemma {:induction false} DrainIsARun(p: Pool, clock: nat -> int, k: nat)
    ensures Run(p, DrainEvents(p, clock, k)) == Drain(p, clock, k)
    ensures Monotone(clock) && p.now <= clock(k) ==> TimelyRun(p, DrainEvents(p, clock, k))
    decreases |p.queue|
  {
    if !Closed(p) {
      var e := Dispatch(clock(k), clock(k + 1));
      if Pick(p, clock(k)) < 0 {
        OneStep(p, e);
      } else {
        var q, next := Step(p, e), NextReading(p, clock, k);
        DrainIsARun(q, clock, next);
        RunCons(p, e, DrainEvents(q, clock, next));
      }
    }
  }

  // The accounting survives a real drain, on any clock.
  lemma DrainKeepsCounts(p: Pool, clock: nat -> int, k: nat)
    requires WellQueued(p) && Counted(p)
    ensures WellQueued(Drain(p, clock, k)) && Counted(Drain(p, clock, k))
    ensures Reserved(p) && (forall e | e in DrainEvents(p, clock, k) :: Steady(e)) ==> Reserved(Drain(p, clock, k))
  {
    hide Run, Drain, DrainEvents, Steady, WellQueued, Counted;
    DrainIsARun(p, clock, k);
    RunKeepsCounts(p, DrainEvents(p, clock, k));
  }

  // The reading with which the drain last searched its queue.
  ghost function LastReading(p: Pool, clock: nat -> int, k: nat): nat
    decreases |p.queue|
  {
    if Pick(p, clock(k)) < 0 then k
    else LastReading(DispatchOne(p, clock(k), clock(k + 1)), clock, NextReading(p, clock, k))
  }

  // All slots are used, or what is queued counts as background.
  ghost predicate Served(p: Pool, at: int) {
    p.runningReads == CLI_READ_CONCURRENCY || forall i | 0 <= i < |p.queue| :: Effective(p.queue[i], at) == Background
  }

  lemma NothingToPick(p: Pool, at: int)
    requires Counted(p) && Pick(p, at) < 0
    ensures Served(p, at)
  {}

  lemma {:induction false} DrainStops(p: Pool, clock: nat -> int, k: nat)
    requires WellQueued(p) && Counted(p)
    ensures Served(Drain(p, clock, k), clock(LastReading(p, clock, k)))
    decreases |p.queue|
  {
    var q := DispatchOne(p, clock(k), clock(k + 1));
    if Pick(p, clock(k)) < 0 {
      NothingToPick(p, clock(k));
      assert q.queue == p.queue && q.runningReads == p.runningReads;
    } else {
      DispatchKeepsQueue(p, clock(k), clock(k + 1));
      DispatchKeepsCounts(p, clock(k), clock(k + 1));
      DrainStops(q, clock, NextReading(p, clock, k));
    }
  }

  // After a drain, a read somebody is waiting on, be it promoted while the drain ran, is still queued only
  // when all four slots are used; and unless a dispatch of this drain saw the clock step back, at least
  // one of them is used by a foreground read.
  lemma DrainServesForeground(p: Pool, clock: nat -> int, k: nat, i: nat)
    requires WellQueued(p) && Counted(p) && i < |Drain(p, clock, k).queue|
    requires Effective(Drain(p, clock, k).queue[i], clock(LastReading(p, clock, k))) != Background
    ensures var q := Drain(p, clock, k);
            && |q.running| == CLI_READ_CONCURRENCY
            && (Reserved(p) && (forall e | e in DrainEvents(p, clock, k) :: Steady(e)) ==>
                  exists id :: id in q.running && !q.running[id])
  {
    hide Drain, DrainEvents, Steady;
    DrainStops(p, clock, k);
    DrainKeepsCounts(p, clock, k);
    if Reserved(Drain(p, clock, k)) { FullPoolHasForeground(Drain(p, clock, k)); }
  }

  lemma FullPoolHasForeground(p: Pool)
    requires Inv(p) && |p.running| == CLI_READ_CONCURRENCY
    ensures exists id :: id in p.running && !p.running[id]
  {
    assert (forall id | id in p.running :: p.running[id]) ==> BackgroundIds(p.running) == p.running.Keys;
  }

  // ---- A queued ticket is what was asked for ----

  // The event queues ticket `id`.
  ghost predicate Queues(p: Pool, e: Event, id: nat) {
    e.Enqueue? && p.nextId == id
  }

  // The more urgent of two priorities.
  function Urgent(a: Priority, b: Priority): Priority {
    if a == Interactive || b == Interactive then Interactive
    else if a == Normal || b == Normal then Normal else Background
  }

  // The most urgent priority ticket `id` was queued with, or raised to since.
  ghost function Asked(events: seq<Event>, id: nat): Priority {
    if events == [] then Background
    else
      var front, last := events[..|events| - 1], events[|events| - 1];
      if Queues(Run(EMPTY_POOL, front), last, id) then last.priority
      else if last.Raise? && last.id == id then Urgent(Asked(front, id), last.priority)
      else Asked(front, id)
  }

  lemma PlaceOf(queue: seq<Ticket>, id: nat)
    ensures IndexOf(queue, id) >= 0 <==> exists i :: 0 <= i < |queue| && queue[i].id == id
  {}

  lemma PlaceIs(queue: seq<Ticket>, id: nat)
    ensures IndexOf(queue, id) >= 0 ==> IndexOf(queue, id) < |queue| && queue[IndexOf(queue, id)].id == id
  {}

  // Where the ticket stood that stands at `i` after the event.
  ghost function Before(p: Pool, e: Event, i: nat): nat {
    var gone := match e
      case Cancel(id) => IndexOf(p.queue, id)
      case Dispatch(chosenAt, _) => Pick(p, chosenAt)
      case _ => -1;
    if gone < 0 || i < gone then i else i + 1
  }

  lemma StoodBefore(p: Pool, e: Event, i: nat)
    requires WellQueued(p) && i < |Step(p, e).queue| && !(e.Enqueue? && i == |p.queue|)
    ensures var q, b := Step(p, e), Before(p, e, i);
      && b < |p.queue| && q.queue[i].id == p.queue[b].id && IndexOf(p.queue, p.queue[b].id) == b
      && (!e.Raise? ==> q.queue[i] == p.queue[b])
  {
    hide IndexOf;
    IdsAreThere(p, e, i);
    IndexIs(p.queue, Step(p, e).queue[i].id, Before(p, e, i));
  }

  lemma IdsAreThere(p: Pool, e: Event, i: nat)
    requires i < |Step(p, e).queue| && !(e.Enqueue? && i == |p.queue|)
    ensures var q, b := Step(p, e), Before(p, e, i);
      b < |p.queue| && q.queue[i].id == p.queue[b].id && (!e.Raise? ==> q.queue[i] == p.queue[b])
  {
    hide IndexOf, Raised, Dropped, DispatchOne;
    match e
    case Cancel(id) => PlaceIs(p.queue, id); DroppedKeepsIds(p.queue, id);
    case Raise(id, priority) => RaisedKeepsIds(p.queue, id, priority);
    case Dispatch(chosenAt, startedAt) => DispatchLeaves(p, chosenAt, startedAt);
    case _ =>
  }

  lemma DispatchLeaves(p: Pool, chosenAt: int, startedAt: int)
    ensures DispatchOne(p, chosenAt, startedAt).queue ==
            if Pick(p, chosenAt) < 0 then p.queue else Without(p.queue, Pick(p, chosenAt))
  {}

  // What one event does to the priority and the time of a queued ticket.
  lemma StepKeepsTicket(p: Pool, e: Event, i: nat)
    requires WellQueued(p) && i < |Step(p, e).queue|
    ensures var ticket := Step(p, e).queue[i];
      if Queues(p, e, ticket.id) then ticket == Ticket(ticket.id, e.priority, e.at, false)
      else
        && IndexOf(p.queue, ticket.id) >= 0
        && var before := p.queue[IndexOf(p.queue, ticket.id)];
           ticket == if e.Raise? && e.id == ticket.id
                     then before.(priority := Urgent(before.priority, e.priority)) else before
  {
    hide IndexOf, DispatchOne, Dropped;
    if !(e.Enqueue? && i == |p.queue|) {
      StoodBefore(p, e, i);
      if e.Raise? { RaisedTo(p.queue, e.id, e.priority, i); }
    }
  }

  lemma RaisedTo(queue: seq<Ticket>, id: nat, priority: Priority, i: nat)
    requires i < |queue| && IndexOf(queue, queue[i].id) == i
    ensures var q := Raised(queue, id, priority);
      && |q| == |queue|
      && q[i] == if id == queue[i].id then queue[i].(priority := Urgent(queue[i].priority, priority)) else queue[i]
  {}

  // Event `k` queued ticket `id` at time `at`.
  ghost predicate QueuedBy(events: seq<Event>, k: nat, id: nat, at: int)
    requires k < |events|
  {
    Queues(Run(EMPTY_POOL, events[..k]), events[k], id) && events[k].Enqueue? && events[k].at == at
  }

  // Over every run a queued ticket has waited since the event that queued it, and has the most urgent
  // priority it was queued with or raised to since.
  lemma {:induction false} TicketsAreAsAsked(events: seq<Event>, i: nat)
    requires i < |Run(EMPTY_POOL, events).queue|
    ensures var ticket := Run(EMPTY_POOL, events).queue[i];
      && ticket.priority == Asked(events, ticket.id) && !ticket.cancelled
      && exists k :: 0 <= k < |events| && QueuedBy(events, k, ticket.id, ticket.enqueuedAt)
  {
    hide Step, WellQueued, Counted, Queues, IndexOf;
    var front, last := events[..|events| - 1], events[|events| - 1];
    var p, ticket := Run(EMPTY_POOL, front), Run(EMPTY_POOL, events).queue[i];
    NothingQueued();
    RunKeepsCounts(EMPTY_POOL, front);
    StepKeepsTicket(p, last, i);
    assert events[..|front|] == front && events[|front|] == last;
    if Queues(p, last, ticket.id) {
      QueuesEnqueues(p, last, ticket.id);
      assert QueuedBy(events, |front|, ticket.id, ticket.enqueuedAt);
    } else {
      var b := IndexOf(p.queue, ticket.id);
      PlaceIs(p.queue, ticket.id);
      TicketsAreAsAsked(front, b);
      var k :| 0 <= k < |front| && QueuedBy(front, k, ticket.id, ticket.enqueuedAt);
      assert events[..k] == front[..k] && events[k] == front[k];
      assert QueuedBy(events, k, ticket.id, ticket.enqueuedAt);
    }
  }

  lemma NothingQueued()
    ensures WellQueued(EMPTY_POOL) && Counted(EMPTY_POOL)
  {
    assert BackgroundIds(map[]) == {};
  }

  lemma QueuesEnqueues(p: Pool, e: Event, id: nat)
    requires Queues(p, e, id)
    ensures e.Enqueue?
  {}

  lemma RaisedKeepsIds(queue: seq<Ticket>, id: nat, priority: Priority)
    ensures var q := Raised(queue, id, priority);
      |q| == |queue| && forall i | 0 <= i < |q| :: q[i].id == queue[i].id
  {}

  lemma DroppedKeepsIds(queue: seq<Ticket>, id: nat)
    ensures var q, gone := Dropped(queue, id), IndexOf(queue, id);
      && |q| == (if gone < 0 then |queue| else |queue| - 1)
      && forall i | 0 <= i < |q| :: q[i] == queue[if gone < 0 || i < gone then i else i + 1]
  {}

  // A ticket leaves the queue exactly to run, or because it is cancelled.
  lemma TicketsLeaveToRun(p: Pool, e: Event, id: nat)
    requires WellQueued(p) && IndexOf(p.queue, id) >= 0
    ensures IndexOf(Step(p, e).queue, id) < 0 <==> e == Cancel(id) || (e.Dispatch? && id in Step(p, e).running)
  {
    hide IndexOf, Raised, Dropped, DispatchOne;
    var q, b := Step(p, e), IndexOf(p.queue, id);
    PlaceIs(p.queue, id);
    PlaceOf(q.queue, id);
    match e
    case Enqueue(_, _) => assert q.queue[b] == p.queue[b];
    case Raise(other, priority) =>
      RaisedKeepsIds(p.queue, other, priority);
      assert q.queue[b].id == id;
    case Cancel(other) =>
      DroppedKeepsIds(p.queue, other);
      PlaceIs(p.queue, other);
      Survives(p.queue, q.queue, IndexOf(p.queue, other), b);
    case Dispatch(chosenAt, startedAt) =>
      DispatchedRuns(p, chosenAt, startedAt, id);
      Survives(p.queue, q.queue, Pick(p, chosenAt), b);
    case Finish(_) =>
  }

  lemma Survives(queue: seq<Ticket>, rest: seq<Ticket>, gone: int, b: nat)
    requires b < |queue| && gone < |queue| && forall i, j | 0 <= i < j < |queue| :: queue[i].id != queue[j].id
    requires |rest| == if gone < 0 then |queue| else |queue| - 1
    requires forall i | 0 <= i < |rest| :: rest[i] == queue[if gone < 0 || i < gone then i else i + 1]
    ensures (exists i :: 0 <= i < |rest| && rest[i].id == queue[b].id) <==> b != gone
  {
    if b != gone { assert rest[if gone < 0 || b < gone then b else b - 1].id == queue[b].id; }
  }

  lemma DispatchedRuns(p: Pool, chosenAt: int, startedAt: int, id: nat)
    requires WellQueued(p) && IndexOf(p.queue, id) >= 0
    ensures var q, gone := DispatchOne(p, chosenAt, startedAt), Pick(p, chosenAt);
      && (id in q.running <==> IndexOf(p.queue, id) == gone)
      && |q.queue| == (if gone < 0 then |p.queue| else |p.queue| - 1)
      && forall i | 0 <= i < |q.queue| :: q.queue[i] == p.queue[if gone < 0 || i < gone then i else i + 1]
  {
    hide IndexOf;
    PlaceIs(p.queue, id);
    if Pick(p, chosenAt) >= 0 { IndexIs(p.queue, p.queue[Pick(p, chosenAt)].id, Pick(p, chosenAt)); }
  }

  // Tickets that stay in the queue keep their order, and a new one stands last.
  lemma TheQueueKeepsItsOrder(p: Pool, e: Event, i: nat, j: nat)
    requires WellQueued(p) && i < j < |Step(p, e).queue|
    ensures var q := Step(p, e);
      && IndexOf(p.queue, q.queue[i].id) >= 0
      && (IndexOf(p.queue, q.queue[j].id) >= 0 ==> IndexOf(p.queue, q.queue[i].id) < IndexOf(p.queue, q.queue[j].id))
      && (IndexOf(p.queue, q.queue[j].id) < 0 ==> Queues(p, e, q.queue[j].id) && j == |p.queue|)
  {
    hide IndexOf, DispatchOne, Raised, Dropped;
    StoodBefore(p, e, i);
    if e.Enqueue? && j == |p.queue| {
      QueuedLast(p, e.priority, e.at);
    } else {
      StoodBefore(p, e, j);
    }
  }

  lemma QueuedLast(p: Pool, priority: Priority, at: int)
    requires WellQueued(p)
    ensures var q := Step(p, Enqueue(priority, at));
      && |q.queue| == |p.queue| + 1 && q.queue[|p.queue|].id == p.nextId && IndexOf(p.queue, p.nextId) < 0
  {
    hide IndexOf;
    PlaceOf(p.queue, p.nextId);
  }

  // ---- The pool as the source writes it ----

  class ReadPool {
    var queuedReads: seq<Ticket>
    var runningReads: int
    var runningBackgroundReads: int
    var nextTicket: nat
    // What each running ticket's completion closure captured, and history for the theorems.
    ghost var running: map<nat, bool>
    ghost var log: seq<Dispatched>
    ghost var now: int

    ghost function View(): Pool
      reads this
    {
      Pool(queuedReads, nextTicket, running, runningReads, runningBackgroundReads, log, now)
    }

    constructor ()
      ensures View() == EMPTY_POOL
    {
      queuedReads, nextTicket, runningReads, runningBackgroundReads := [], 0, 0, 0;
      running, log, now := map[], [], 0;
    }

    method NextReadTicket(at: int) returns (best: int)
      ensures Serves(queuedReads, at, runningBackgroundReads < CLI_READ_CONCURRENCY - 1, best)
      ensures IsChoice(queuedReads, at, runningBackgroundReads < CLI_READ_CONCURRENCY - 1, best)
    {
      var backgroundSlotFree := runningBackgroundReads < CLI_READ_CONCURRENCY - 1;
      best := -1;
      var index := 0;
      while index < |queuedReads|
        invariant 0 <= index <= |queuedReads| && best < index
        invariant IsChoice(queuedReads[..index], at, backgroundSlotFree, best)
      {
        assert forall i | 0 <= i < index :: queuedReads[..index][i] == queuedReads[..index + 1][i];
        var priority := Effective(queuedReads[index], at);
        if priority == Background && !backgroundSlotFree {
        } else if best < 0 || Rank(priority) < Rank(Effective(queuedReads[best], at)) {
          best := index;
        }
        index := index + 1;
      }
      assert queuedReads[..index] == queuedReads;
      ChoiceServes(queuedReads, at, backgroundSlotFree, best);
    }

    method QueueRead(priority: Priority, at: int) returns (ticket: nat)
      modifies this
      ensures ticket == old(nextTicket) && View() == Step(old(View()), Enqueue(priority, at))
    {
      ticket := nextTicket;
      queuedReads := queuedReads + [Ticket(ticket, priority, at, false)];
      nextTicket := nextTicket + 1;
      now := at;
    }

    method CancelRead(ticket: nat)
      modifies this
      ensures View() == Step(old(View()), Cancel(ticket))
    {
      var index := IndexOf(queuedReads, ticket);
      if index >= 0 { queuedReads := Without(queuedReads, index); }
    }

    method RaiseRead(ticket: nat, next: Priority)
      modifies this
      ensures View() == Step(old(View()), Raise(ticket, next))
    {
      var index := IndexOf(queuedReads, ticket);
      if index >= 0 && Rank(next) < Rank(queuedReads[index].priority) {
        queuedReads := queuedReads[index := queuedReads[index].(priority := next)];
      }
    }

    // One iteration of the drain loop once a ticket was found.
    method StartRead(index: nat, chosenAt: int, startedAt: int) returns (cancelled: bool)
      requires index < |queuedReads| && Pick(View(), chosenAt) == index
      modifies this
      ensures View() == DispatchOne(old(View()), chosenAt, startedAt)
      ensures cancelled == old(queuedReads[index].cancelled)
    {
      var ticket := queuedReads[index];
      queuedReads := Without(queuedReads, index);
      now := startedAt;
      if ticket.cancelled { return true; }
      var background := Effective(ticket, startedAt) == Background;
      runningReads := runningReads + 1;
      if background { runningBackgroundReads := runningBackgroundReads + 1; }
      running := running[ticket.id := background];
      log := log + [Dispatched(ticket.id, Effective(ticket, chosenAt))];
      return false;
    }

    method DrainReads(clock: nat -> int)
      modifies this
      ensures View() == Drain(old(View()), clock, 0)
    {
      var k := 0;
      while runningReads < CLI_READ_CONCURRENCY && |queuedReads| > 0
        invariant Drain(View(), clock, k) == Drain(old(View()), clock, 0)
        decreases |queuedReads|
      {
        ghost var before := View();
        var index := NextReadTicket(clock(k));
        ChoiceIsUnique(queuedReads, clock(k), runningBackgroundReads < CLI_READ_CONCURRENCY - 1, index,
                       Pick(before, clock(k)));
        if index < 0 {
          now := clock(k);
          assert View() == DispatchOne(before, clock(k), clock(k + 1));
          return;
        }
        var cancelled := StartRead(index, clock(k), clock(k + 1));
        assert |queuedReads| < |before.queue|;
        k := if cancelled then k + 1 else k + 3;
      }
    }

    // The completion closure: give the slot back, then drain.
    method FinishRead(ticket: nat, background: bool, clock: nat -> int)
      requires ticket in running && running[ticket] == background
      modifies this
      ensures View() == Drain(Step(old(View()), Finish(ticket)), clock, 0)
    {
      runningReads := runningReads - 1;
      if background { runningBackgroundReads := runningBackgroundReads - 1; }
      running := running - {ticket};
      assert View() == Step(old(View()), Finish(ticket));
      DrainReads(clock);
    }
  }
}
