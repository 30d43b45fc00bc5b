// GatewayStatusWorker of apps/vscode/src/gateway-status-worker-client.ts: requests are matched by number
// with the answers of a worker process that is replaced when it fails or hangs. A worker is named by
// the event that forked it. The worker process (gateway-status-worker.ts) answers each message it receives
// under the number of that message.
module StatusWorkers {
  import opened Wrappers

  // History: which worker a request went to, how often it was settled, and with what.
  datatype Request = Request(sentTo: nat, settled: nat, answer: Option<nat>)

  // `pending` maps each unanswered request to the worker captured by its timer.
  datatype Client = Client(worker: Option<nat>, nextId: nat, pending: map<nat, nat>, disposed: bool,
                           requests: map<nat, Request>, step: nat)

  const FRESH := Client(None, 1, map[], false, map[], 0)

  datatype Event =
    | Read(sent: bool)
    | TimedOut(id: nat)
    | Reply(worker: nat, id: nat, value: Option<nat>)
    | Failed(worker: nat)
    | Dispose

  function SettleAll(requests: map<nat, Request>, ids: set<nat>): map<nat, Request> {
    map id | id in requests :: if id in ids then Settle(requests[id], None) else requests[id]
  }

  function Settle(r: Request, answer: Option<nat>): Request {
    r.(settled := r.settled + 1, answer := answer)
  }

  // finishPending: everyone who waits gets null.
  function Finished(s: Client): Client {
    s.(pending := map[], requests := SettleAll(s.requests, s.pending.Keys))
  }

  function Answered(s: Client, id: nat, answer: Option<nat>): Client
    requires id in s.requests
  {
    s.(pending := s.pending - {id}, requests := s.requests[id := Settle(s.requests[id], answer)])
  }

  // A request goes to the worker that runs, or to a new one; a send that throws settles it at once.
  function Asked(s: Client, sent: bool): Client {
    var worker := if s.worker.Some? then s.worker.value else s.step;
    var request := Request(worker, if sent then 0 else 1, None);
    s.(worker := Some(worker), nextId := s.nextId + 1,
       pending := if sent then s.pending[s.nextId := worker] else s.pending,
       requests := s.requests[s.nextId := request])
  }

  function Dropped(s: Client, worker: nat): Client {
    if s.worker == Some(worker) then Finished(s.(worker := None)) else s
  }

  function Effect(s: Client, e: Event): Client {
    match e
    case Read(sent) => if s.disposed then s else Asked(s, sent)
    case TimedOut(id) =>
      if id in s.pending && id in s.requests then Dropped(Answered(s, id, None), s.pending[id]) else s
    case Reply(_, id, value) => if id in s.pending && id in s.requests then Answered(s, id, value) else s
    case Failed(worker) => Dropped(s, worker)
    case Dispose => Finished(s.(disposed := true, worker := None))
  }

  function Step(s: Client, e: Event): Client {
    Effect(s, e).(step := s.step + 1)
  }

  function Run(events: seq<Event>): Client {
    if events == [] then FRESH else Step(Run(events[..|events| - 1]), events[|events| - 1])
  }

  // Everything pending was sent to the worker that runs; everything else is settled, once.
  ghost predicate Inv(s: Client) {
    && (s.worker.Some? ==> s.worker.value < s.step)
    && s.pending.Keys <= s.requests.Keys
    && (forall id | id in s.pending :: s.worker == Some(s.pending[id]) && s.requests[id].sentTo == s.pending[id])
    && (forall id | id in s.requests ::
          id < s.nextId && s.requests[id].sentTo < s.step && s.requests[id].settled == if id in s.pending then 0 else 1)
  }

  lemma StepKeepsInv(s: Client, e: Event)
    requires Inv(s)
    ensures Inv(Step(s, e))
  {}

  lemma {:induction false} PendingGoesToTheCurrentWorker(events: seq<Event>)
    ensures Inv(Run(events)) && Run(events).step == |events|
  {
    if events != [] {
      PendingGoesToTheCurrentWorker(events[..|events| - 1]);
      StepKeepsInv(Run(events[..|events| - 1]), events[|events| - 1]);
    }
  }

  // The client itself looks at the number of a message only, whoever sent it.
  lemma AnswersAreMatchedByNumber(s: Client, worker: nat, id: nat, value: Option<nat>)
    requires Inv(s)
    ensures var g := Step(s, Reply(worker, id, value));
      && (g.requests != s.requests <==> id in s.pending)
      && (id in s.pending ==> g.requests == s.requests[id := Request(s.pending[id], 1, value)])
  {}

  // A message of a replaced worker that names a number it was not sent settles another worker's request.
  lemma ForeignAnswerIsTaken()
    ensures var s := Step(Step(Step(FRESH, Read(true)), Failed(0)), Read(true));
      && s.worker == Some(2) && s.requests[2].sentTo == 2 && 2 in s.pending
      && Step(s, Reply(0, 2, Some(7))).requests[2] == Request(2, 1, Some(7))
  {}

  // A read goes, under a number of its own, to the worker that runs or to a new one, and waits there; one that
  // cannot be sent is answered with nothing at once. A disposed client answers with nothing and forks nothing.
  lemma ReadsWaitForTheirWorker(s: Client, sent: bool)
    requires Inv(s)
    ensures var g, worker := Step(s, Read(sent)), if s.worker.Some? then s.worker.value else s.step;
      if s.disposed then g == s.(step := s.step + 1)
      else
        && s.nextId !in s.requests && g.worker == Some(worker) && g.nextId == s.nextId + 1
        && g.pending == (if sent then s.pending[s.nextId := worker] else s.pending)
        && g.requests == s.requests[s.nextId := Request(worker, if sent then 0 else 1, None)]
  {}

  // A request is settled by its answer, or with nothing by its timeout, and by the failure of the worker that
  // runs, a timeout of another request there, and the disposal, and by nothing else.
  lemma SettledBy(s: Client, e: Event, id: nat)
    requires Inv(s) && id in s.pending
    ensures var g := Step(s, e);
      && id in g.requests
      && (g.requests[id].settled == 1 <==>
            || (e.Reply? && e.id == id) || (e.TimedOut? && e.id in s.pending)
            || (e.Failed? && s.worker == Some(e.worker)) || e.Dispose?)
      && (g.requests[id].settled == 0 <==> id in g.pending)
      && (g.requests[id].settled == 1 ==> g.requests[id].answer == if e.Reply? then e.value else None)
  {}

  // ---- The client and its workers ----

  datatype Message = Message(worker: nat, value: Option<nat>)

  // `inbox` maps each request a worker has not answered yet to that worker, `flight` each answer that has
  // not reached the client to its message. A worker, replaced or not, may answer or stay silent for ever.
  datatype Service = Service(client: Client, inbox: map<nat, nat>, flight: map<nat, Message>)

  const IDLE := Service(FRESH, map[], map[])

  // OnClient is any event of the client but the arrival of a message.
  datatype Move =
    | OnClient(event: Event)
    | Answer(id: nat, value: Option<nat>)
    | Deliver(id: nat)

  function ClientEvent(v: Service, m: Move): Option<Event> {
    match m
    case OnClient(e) => if e.Reply? then None else Some(e)
    case Answer(_, _) => None
    case Deliver(id) => if id in v.flight then Some(Reply(v.flight[id].worker, id, v.flight[id].value)) else None
  }

  predicate Receives(v: Service, m: Move) {
    m == OnClient(Read(true)) && !v.client.disposed
  }

  function Advance(v: Service, m: Move): Service {
    var client := if ClientEvent(v, m).Some? then Step(v.client, ClientEvent(v, m).value) else v.client;
    match m
    case OnClient(_) =>
      Service(client,
              if Receives(v, m) && client.worker.Some?
              then v.inbox[v.client.nextId := client.worker.value] else v.inbox,
              v.flight)
    case Answer(id, value) =>
      if id in v.inbox then Service(client, v.inbox - {id}, v.flight[id := Message(v.inbox[id], value)]) else v
    case Deliver(id) => Service(client, v.inbox, v.flight - {id})
  }

  function Play(moves: seq<Move>): Service {
    if moves == [] then IDLE else Advance(Play(moves[..|moves| - 1]), moves[|moves| - 1])
  }

  // Whatever a worker holds or has said, it was sent; and everything that is pending is still with its worker
  // or on its way back.
  ghost predicate Honest(v: Service) {
    && Inv(v.client)
    && (forall id | id in v.inbox ::
          id in v.client.requests && v.client.requests[id].sentTo == v.inbox[id])
    && (forall id | id in v.flight ::
          id in v.client.requests && v.client.requests[id].sentTo == v.flight[id].worker)
    && v.client.pending.Keys <= v.inbox.Keys + v.flight.Keys
  }

  lemma RequestsKeepTheirWorker(s: Client, e: Event, id: nat)
    requires Inv(s) && id in s.requests
    ensures id in Step(s, e).requests && Step(s, e).requests[id].sentTo == s.requests[id].sentTo
  {}

  lemma PendingShrinks(s: Client, e: Event)
    requires Inv(s)
    ensures e == Read(true) && !s.disposed ==>
              var g := Step(s, e);
              && g.pending.Keys == s.pending.Keys + {s.nextId} && s.nextId in g.requests && s.nextId !in s.requests
              && g.worker == Some(g.requests[s.nextId].sentTo)
    ensures !(e == Read(true) && !s.disposed) ==> Step(s, e).pending.Keys <= s.pending.Keys
    ensures e.Reply? ==> Step(s, e).pending.Keys == s.pending.Keys - {e.id}
  {}

  lemma MoveKeepsHonest(v: Service, m: Move)
    requires Honest(v)
    ensures Honest(Advance(v, m))
  {
    hide Inv, Step;
    if ClientEvent(v, m).Some? {
      var e := ClientEvent(v, m).value;
      StepKeepsInv(v.client, e);
      PendingShrinks(v.client, e);
      forall id | id in v.client.requests
        ensures id in Step(v.client, e).requests
        ensures Step(v.client, e).requests[id].sentTo == v.client.requests[id].sentTo
      {
        RequestsKeepTheirWorker(v.client, e, id);
      }
    }
  }

  // Over every run of the client and its workers: messages come from the worker their request was sent to,
  // and an answer to everything pending can still come.
  lemma {:induction false} AnswersToEverythingPendingCanCome(moves: seq<Move>)
    ensures Honest(Play(moves))
  {
    hide Honest, Advance;
    if moves == [] {
      NobodyAsked();
    } else {
      AnswersToEverythingPendingCanCome(moves[..|moves| - 1]);
      MoveKeepsHonest(Play(moves[..|moves| - 1]), moves[|moves| - 1]);
    }
  }

  lemma NobodyAsked()
    ensures Honest(IDLE)
  {}

  // A request is settled once, and with a value only by the message in which the worker it was sent to answers
  // its own number.
  lemma AnswersBelongToTheirRequest(moves: seq<Move>, k: nat, id: nat)
    requires k < |moves| && id in Play(moves[..k]).client.requests
    ensures var v, g := Play(moves[..k]), Play(moves[..k + 1]);
      && id in g.client.requests
      && var before, after := v.client.requests[id], g.client.requests[id];
         && after.sentTo == before.sentTo && before.settled <= after.settled <= 1
         && (before.settled == 1 ==> after == before)
         && (before.settled == 0 && after.settled == 1 && after.answer.Some? ==>
               moves[k] == Deliver(id) && id in v.flight && v.flight[id] == Message(after.sentTo, after.answer))
  {
    hide Step;
    var v := Play(moves[..k]);
    AnswersToEverythingPendingCanCome(moves[..k]);
    assert moves[..k + 1][..k] == moves[..k];
    assert Play(moves[..k + 1]) == Advance(v, moves[k]);
    if ClientEvent(v, moves[k]).Some? { SettledOnce(v.client, ClientEvent(v, moves[k]).value, id); }
  }

  lemma SettledOnce(s: Client, e: Event, id: nat)
    requires Inv(s) && id in s.requests
    requires e.Reply? && e.id in s.requests ==> s.requests[e.id].sentTo == e.worker
    ensures var g := Step(s, e);
      && id in g.requests && g.requests[id].sentTo == s.requests[id].sentTo
      && s.requests[id].settled <= g.requests[id].settled <= 1
      && (s.requests[id].settled == 1 ==> g.requests[id] == s.requests[id])
      && (s.requests[id].settled == 0 && g.requests[id].settled == 1 && g.requests[id].answer.Some? ==>
            e == Reply(s.requests[id].sentTo, id, g.requests[id].answer))
  {}

  // Every answer that reaches the client was given by its worker, after the number was sent there.
  lemma {:induction false} AnswersWereGiven(moves: seq<Move>, id: nat)
    requires id in Play(moves).flight
    ensures exists m | 0 <= m < |moves| ::
      && moves[m] == Answer(id, Play(moves).flight[id].value)
      && id in Play(moves[..m]).inbox && Play(moves[..m]).inbox[id] == Play(moves).flight[id].worker
  {
    hide ClientEvent;
    var front, last := moves[..|moves| - 1], moves[|moves| - 1];
    if last.Answer? && last.id == id && id in Play(front).inbox {
      assert moves[|front|] == last && moves[..|front|] == front;
    } else {
      AnswersWereGiven(front, id);
      var m :| 0 <= m < |front| && front[m] == Answer(id, Play(front).flight[id].value)
        && id in Play(front[..m]).inbox && Play(front[..m]).inbox[id] == Play(front).flight[id].worker;
      assert moves[m] == front[m] && moves[..m] == front[..m];
    }
  }

  // Whatever a replaced worker still says, or does, changes nothing.
  lemma ReplacedWorkersAreIgnored(moves: seq<Move>, m: Move)
    requires var v := Play(moves);
      || (m.Deliver? && m.id in v.flight && v.client.worker != Some(v.flight[m.id].worker))
      || (m.OnClient? && m.event.Failed? && v.client.worker != Some(m.event.worker))
    ensures var s, g := Play(moves).client, Play(moves + [m]).client; g == s.(step := s.step + 1)
  {
    AnswersToEverythingPendingCanCome(moves);
    assert (moves + [m])[..|moves|] == moves;
  }

  // A read that hangs takes its worker down, and every other request sent there with it; a hang of
  // anything else cannot happen, because nothing else is pending.
  lemma HungReadReplacesItsWorker(s: Client, id: nat)
    requires Inv(s) && id in s.pending
    ensures var g := Step(s, TimedOut(id));
      && g.worker == None && g.pending == map[]
      && forall k | k in s.pending :: k in g.requests && g.requests[k].settled == 1 && g.requests[k].answer == None
  {}

  // A disposed client forks nothing and leaves nobody waiting.
  lemma {:induction false} DisposedStaysQuiet(events: seq<Event>, n: nat)
    requires n <= |events| && Run(events[..n]).disposed
    ensures var s := Run(events); s.disposed && s.worker == None && s.pending == map[]
  {
    if n == |events| {
      assert events[..n] == events;
      DisposedIsEmpty(events);
    } else {
      var front := events[..|events| - 1];
      assert front[..n] == events[..n];
      DisposedStaysQuiet(front, n);
    }
  }

  lemma {:induction false} DisposedIsEmpty(events: seq<Event>)
    ensures Run(events).disposed ==> Run(events).worker == None && Run(events).pending == map[]
  {
    if events != [] { DisposedIsEmpty(events[..|events| - 1]); }
  }

  class GatewayStatusWorker {
    var worker: Option<nat>
    var nextId: nat
    var pending: map<nat, nat>
    var disposed: bool
    var nextName: nat
    ghost var requests: map<nat, Request>

    ghost function View(): Client
      reads this
    {
      Client(worker, nextId, pending, disposed, requests, nextName)
    }

    constructor ()
      ensures View() == FRESH
    {
      worker, nextId, pending, disposed, nextName := None, 1, map[], false, 0;
      requests := map[];
    }

    method EnsureWorker() returns (w: nat)
      modifies this`worker
      ensures w == (if old(worker).Some? then old(worker).value else nextName) && worker == Some(w)
    {
      if worker.None? {
        worker := Some(nextName);
      }
      w := worker.value;
    }

    method FinishPending()
      modifies this`pending, this`requests
      ensures View() == Finished(old(View()))
    {
      ghost var was := requests;
      ghost var done := {};
      assert SettleAll(was, done) == was;
      var waiting := pending.Keys;
      while waiting != {}
        invariant waiting <= pending.Keys && done == pending.Keys - waiting
        invariant requests == SettleAll(was, done)
        modifies this`requests
      {
        var id :| id in waiting;
        waiting := waiting - {id};
        ghost var settled := requests;
        if id in requests { requests := requests[id := Settle(requests[id], None)]; }
        done := done + {id};
        assert requests == SettleAll(was, done);
      }
      assert done == pending.Keys;
      pending := map[];
    }

    method Ask(sent: bool)
      modifies this
      ensures View() == Step(old(View()), Read(sent))
    {
      if !disposed {
        var w := EnsureWorker();
        requests := requests[nextId := Request(w, if sent then 0 else 1, None)];
        if sent {
          pending := pending[nextId := w];
        }
        nextId := nextId + 1;
      }
      nextName := nextName + 1;
    }

    method OnTimeout(id: nat)
      requires id in pending && id in requests
      modifies this
      ensures View() == Step(old(View()), TimedOut(id))
    {
      var w := pending[id];
      pending := pending - {id};
      requests := requests[id := Settle(requests[id], None)];
      if worker == Some(w) {
        worker := None;
        FinishPending();
      }
      nextName := nextName + 1;
    }

    method OnMessage(w: nat, id: nat, value: Option<nat>)
      requires id in pending ==> id in requests
      modifies this
      ensures View() == Step(old(View()), Reply(w, id, value))
    {
      if id in pending {
        pending := pending - {id};
        requests := requests[id := Settle(requests[id], value)];
      }
      nextName := nextName + 1;
    }

    method WorkerFailed(w: nat)
      modifies this
      ensures View() == Step(old(View()), Failed(w))
    {
      if worker == Some(w) {
        worker := None;
        FinishPending();
      }
      nextName := nextName + 1;
    }

    method Close()
      modifies this
      ensures View() == Step(old(View()), Dispose)
    {
      disposed, worker := true, None;
      FinishPending();
      nextName := nextName + 1;
    }
  }
}
