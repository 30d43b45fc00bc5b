// LatestSingleFlight and MicrotaskCoalescer of apps/vscode/src/single-flight.ts, and StoryRefreshGate of
// apps/vscode/src/story-discovery.ts: small schedulers that let many requests share one operation.
module SingleFlights {
  import opened Wrappers

  // `begunAt` is the event at which the last operation of the run began: history.
  datatype Outcome = Resolved(value: nat) | Rejected(error: nat)
  datatype Phase = Operating | Settling(outcome: Outcome) | Done(outcome: Outcome)
  datatype Flow = Flow(phase: Phase, generation: nat, begunAt: nat, operations: nat)

  // A run of the loop is named by the event that started it.
  datatype Single = Single(requested: nat, active: Option<nat>, flows: map<nat, Flow>, step: nat)

  const IDLE := Single(0, None, map[], 0)

  datatype Event =
    | Request
    | Resolve(flow: nat, value: nat)
    | Reject(flow: nat, error: nat)
    | Settle(flow: nat)

  function Requested(s: Single): Single {
    s.(requested := s.requested + 1,
       active := if s.active.Some? then s.active else Some(s.step),
       flows := if s.active.Some? then s.flows
                else s.flows[s.step := Flow(Operating, s.requested + 1, s.step, 1)])
  }

  // The operation resolved: its value stands unless something was requested since it began.
  function OnResolve(s: Single, f: Flow, value: nat): Flow {
    if f.generation == s.requested then f.(phase := Settling(Resolved(value)))
    else f.(generation := s.requested, begunAt := s.step, operations := f.operations + 1)
  }

  // A rejection leaves the loop at once.
  function OnReject(f: Flow, error: nat): Flow {
    f.(phase := Settling(Rejected(error)))
  }

  function Effect(s: Single, e: Event): Single {
    match e
    case Request => Requested(s)
    case Resolve(r, value) =>
      if r in s.flows && s.flows[r].phase.Operating?
      then s.(flows := s.flows[r := OnResolve(s, s.flows[r], value)]) else s
    case Reject(r, error) =>
      if r in s.flows && s.flows[r].phase.Operating? then s.(flows := s.flows[r := OnReject(s.flows[r], error)]) else s
    case Settle(r) =>
      if r in s.flows && s.flows[r].phase.Settling?
      then s.(flows := s.flows[r := s.flows[r].(phase := Done(s.flows[r].phase.outcome))],
              active := if s.active == Some(r) then None else s.active)
      else s
  }

  function Step(s: Single, e: Event): Single {
    Effect(s, e).(step := s.step + 1)
  }

  function Run(events: seq<Event>): Single {
    if events == [] then IDLE else Step(Run(events[..|events| - 1]), events[|events| - 1])
  }

  ghost predicate Inv(s: Single) {
    && (s.active.Some? ==> s.active.value in s.flows && !s.flows[s.active.value].phase.Done?)
    && forall r | r in s.flows ::
         && s.flows[r].generation <= s.requested && r <= s.flows[r].begunAt < s.step
         && (!s.flows[r].phase.Done? ==> s.active == Some(r))
  }

  lemma StepKeepsInv(s: Single, e: Event)
    requires Inv(s)
    ensures Inv(Step(s, e))
  {}

  // Whatever arrives, there is one run at a time.
  lemma {:induction false} OneRunAtATime(events: seq<Event>)
    ensures Inv(Run(events)) && Run(events).step == |events|
  {
    if events != [] {
      OneRunAtATime(events[..|events| - 1]);
      StepKeepsInv(Run(events[..|events| - 1]), events[|events| - 1]);
    }
  }

  ghost predicate InSettleGap(s: Single, r: nat) {
    r in s.flows && !s.flows[r].phase.Operating?
  }

  // Where run `r` stands for a request made in `at` that waits for it.
  ghost predicate Answering(at: Single, s: Single, r: nat) {
    r in s.flows && at.requested < s.requested &&
    var f := s.flows[r];
    if InSettleGap(at, r) then !f.phase.Operating? && f.begunAt < at.step
    else if f.begunAt >= at.step then f.generation > at.requested
    else f.generation <= at.requested
         && (f.phase.Operating? || f.phase.Settling? || f.phase.Done?)
         && (!f.phase.Operating? ==> Ended(f).Rejected?)
  }

  function Ended(f: Flow): Outcome
    requires !f.phase.Operating?
  {
    f.phase.outcome
  }

  lemma StepAnswers(at: Single, s: Single, e: Event, r: nat)
    requires Inv(s) && Answering(at, s, r) && at.step <= s.step
    ensures Answering(at, Step(s, e), r)
  {}

  lemma RequestAnswers(s: Single, r: nat)
    requires Inv(s) && Step(s, Request).active == Some(r)
    ensures Answering(s, Step(s, Request), r)
  {}

  lemma {:induction false} StaysAnswering(events: seq<Event>, q: nat, r: nat)
    requires q < |events| && events[q] == Request && Run(events[..q + 1]).active == Some(r)
    ensures Answering(Run(events[..q]), Run(events), r)
  {
    hide Step;
    var front, last := events[..|events| - 1], events[|events| - 1];
    OneRunAtATime(events[..q]);
    if q + 1 == |events| {
      assert events[..q + 1] == events;
      RequestAnswers(Run(events[..q]), r);
    } else {
      assert front[..q] == events[..q] && front[..q + 1] == events[..q + 1];
      OneRunAtATime(front);
      StaysAnswering(front, q, r);
      StepAnswers(Run(events[..q]), Run(front), last, r);
    }
  }

  // The operation that run `r` is making resolves.
  ghost predicate Answers(s: Single, e: Event, r: nat) {
    e.Resolve? && e.flow == r && r in s.flows && s.flows[r].phase.Operating?
  }

  ghost predicate AnsweredSince(events: seq<Event>, q: nat, r: nat) {
    exists j :: q < j < |events| && Answers(Run(events[..j]), events[j], r)
  }

  lemma AnsweredMore(events: seq<Event>, e: Event, q: nat, r: nat)
    requires q < |events|
    ensures AnsweredSince(events + [e], q, r) <==> AnsweredSince(events, q, r) || Answers(Run(events), e, r)
  {
    hide Run, Answers;
    var all := events + [e];
    assert forall j | 0 <= j <= |events| :: all[..j] == events[..j];
    assert forall j | 0 <= j < |events| :: all[j] == events[j];
    if Answers(Run(events), e, r) { assert Answers(Run(all[..|events|]), all[|events|], r); }
    if j :| q < j < |events| && Answers(Run(events[..j]), events[j], r) {
      assert Answers(Run(all[..j]), all[j], r);
    }
  }

  lemma AnswerRestarts(at: Single, s: Single, e: Event, r: nat)
    requires Inv(s) && Answering(at, s, r) && at.step <= s.step
    ensures var g := Step(s, e);
      r in g.flows && (g.flows[r].begunAt >= at.step <==> s.flows[r].begunAt >= at.step || Answers(s, e, r))
  {}

  lemma RunUnfolds(events: seq<Event>)
    requires events != []
    ensures Run(events) == Step(Run(events[..|events| - 1]), events[|events| - 1])
  {}

  lemma NothingAnsweredYet(events: seq<Event>, q: nat, r: nat)
    requires q + 1 == |events|
    ensures !AnsweredSince(events, q, r)
  {}

  // The last operation of a run began at or after a request that waits for it exactly if the request
  // started the run, or an operation of the run resolved since.
  lemma {:induction false} BeginningsTell(events: seq<Event>, q: nat, r: nat)
    requires q < |events| && events[q] == Request && Run(events[..q + 1]).active == Some(r)
    ensures r in Run(events).flows
    ensures q <= Run(events).flows[r].begunAt <==> r == q || AnsweredSince(events, q, r)
  {
    hide Run, Step, Answering, Answers, AnsweredSince, Inv;
    OneRunAtATime(events[..q]);
    RunUnfolds(events);
    if q + 1 == |events| {
      assert events[..q + 1] == events && events[..|events| - 1] == events[..q];
      NothingAnsweredYet(events, q, r);
      RequestBegins(Run(events[..q]), r);
    } else {
      var front, last := events[..|events| - 1], events[|events| - 1];
      assert front[..q] == events[..q] && front[..q + 1] == events[..q + 1] && events == front + [last];
      BeginningsTell(front, q, r);
      OneRunAtATime(front);
      StaysAnswering(front, q, r);
      AnswerRestarts(Run(events[..q]), Run(front), last, r);
      AnsweredMore(front, last, q, r);
    }
  }

  lemma RequestBegins(s: Single, r: nat)
    requires Inv(s) && Step(s, Request).active == Some(r)
    ensures r in Step(s, Request).flows && (s.step <= Step(s, Request).flows[r].begunAt <==> r == s.step)
  {}

  // What a request gets resolved comes from an operation begun at or after it exactly unless it fell into
  // the settle gap. A rejection is not checked against newer requests: it is older exactly if the request
  // found a run and no operation of that run has resolved since.
  lemma ValuesAreFresh(events: seq<Event>, q: nat, r: nat)
    requires q < |events| && events[q] == Request && Run(events[..q + 1]).active == Some(r)
    requires r in Run(events).flows && !Run(events).flows[r].phase.Operating?
    ensures var f := Run(events).flows[r];
      && (Ended(f).Resolved? ==> (q <= f.begunAt <==> !InSettleGap(Run(events[..q]), r)))
      && (Ended(f).Rejected? ==> (f.begunAt < q <==> r != q && !AnsweredSince(events, q, r)))
  {
    hide AnsweredSince;
    OneRunAtATime(events[..q]);
    StaysAnswering(events, q, r);
    BeginningsTell(events, q, r);
  }

  // The gap is reachable: the second request joins the run whose value was read before it.
  lemma SettleGapIsReachable(value: nat)
    ensures var s := Run([Request, Resolve(0, value)]);
      && InSettleGap(s, 0) && s.active == Some(0)
      && var late := Run([Request, Resolve(0, value), Request]);
         && late.active == Some(0) && late.flows == s.flows && late.flows[0].phase == Settling(Resolved(value))
         && late.flows[0].begunAt < 2
  {
    var first, second: seq<Event> := [Request], [Request, Resolve(0, value)];
    var third: seq<Event> := [Request, Resolve(0, value), Request];
    assert first[..0] == [] && second[..1] == first && third[..2] == second;
    assert Run(first) == Step(IDLE, Request);
    assert Run(second) == Step(Run(first), Resolve(0, value));
    assert Run(third) == Step(Run(second), Request);
  }

  // Any number of requests during one operation cost one more.
  function Burst(s: Single, n: nat): Single {
    if n == 0 then s else Step(Burst(s, n - 1), Request)
  }

  lemma {:induction false} BurstCostsOneOperation(s: Single, r: nat, n: nat, late: nat, next: nat)
    requires Inv(s) && s.active == Some(r) && s.flows[r].phase.Operating?
    requires s.flows[r].generation == s.requested && 0 < n
    ensures var asked := Burst(s, n);
            var again := Step(asked, Resolve(r, late));
            var done := Step(again, Resolve(r, next));
      && r in again.flows && again.flows[r].phase.Operating? && again.flows[r].operations == s.flows[r].operations + 1
      && r in done.flows && done.flows[r].phase == Settling(Resolved(next))
  {
    BurstOnlyCounts(s, n);
  }

  lemma {:induction false} BurstOnlyCounts(s: Single, n: nat)
    requires s.active.Some?
    ensures Burst(s, n).flows == s.flows && Burst(s, n).active == s.active && Burst(s, n).requested == s.requested + n
  {
    if n > 0 { BurstOnlyCounts(s, n - 1); }
  }

  // A rejection reaches everyone who waits, newer requests included.
  lemma RejectionReachesNewerRequests(s: Single, r: nat, error: nat)
    requires Inv(s) && s.active == Some(r) && s.flows[r].phase.Operating?
    ensures var asked := Step(s, Request); var failed := Step(asked, Reject(r, error));
      && asked.active == Some(r) && failed.flows[r].phase == Settling(Rejected(error))
      && failed.flows[r].begunAt < s.step
  {}

  // A request waits for the run in flight, or starts one with an operation of its own.
  lemma RequestsStartOrJoin(s: Single)
    requires Inv(s)
    ensures var g := Step(s, Request);
      && g.requested == s.requested + 1
      && if s.active.Some? then g.active == s.active && g.flows == s.flows
         else && s.step !in s.flows && g.active == Some(s.step)
              && g.flows == s.flows[s.step := Flow(Operating, s.requested + 1, s.step, 1)]
  {}

  function Requests(events: seq<Event>): nat {
    if events == [] then 0
    else Requests(events[..|events| - 1]) + (if events[|events| - 1] == Request then 1 else 0)
  }

  lemma {:induction false} RequestsAreCounted(events: seq<Event>)
    ensures Run(events).requested == Requests(events)
  {
    if events != [] { RequestsAreCounted(events[..|events| - 1]); }
  }

  // The requests that an operation knows of are those made before it began, its own included.
  lemma {:induction false} OperationsKnowRequests(events: seq<Event>, r: nat)
    requires r in Run(events).flows
    ensures var f := Run(events).flows[r];
      f.begunAt < |events| && f.generation == Requests(events[..f.begunAt + 1])
  {
    hide Run, Step, Requests;
    FlowsComeLater(events, r);
    var front, last := events[..|events| - 1], events[|events| - 1];
    RunUnfolds(events);
    OneRunAtATime(front);
    RequestsAreCounted(front);
    RequestsUnfold(events);
    FlowComesFrom(Run(front), last, r);
    if r in Run(front).flows {
      OperationsKnowRequests(front, r);
      var at := Run(front).flows[r].begunAt;
      assert front[..at + 1] == events[..at + 1];
    }
    assert events[..|front| + 1] == events;
  }

  lemma FlowsComeLater(events: seq<Event>, r: nat)
    requires r in Run(events).flows
    ensures events != []
  {}

  lemma RequestsUnfold(events: seq<Event>)
    requires events != []
    ensures Requests(events) ==
            Requests(events[..|events| - 1]) + (if events[|events| - 1] == Request then 1 else 0)
  {}

  lemma FlowComesFrom(s: Single, e: Event, r: nat)
    requires Inv(s) && r in Step(s, e).flows
    ensures var f := Step(s, e).flows[r];
      || (r in s.flows && f.begunAt == s.flows[r].begunAt && f.generation == s.flows[r].generation)
      || (f.begunAt == s.step && f.generation == s.requested + (if e == Request then 1 else 0))
  {}

  lemma {:induction false} NoneSince(events: seq<Event>, n: nat)
    requires n <= |events|
    ensures Requests(events[..n]) <= Requests(events)
    ensures Requests(events[..n]) == Requests(events) <==> forall k | n <= k < |events| :: events[k] != Request
  {
    hide Requests;
    if n == |events| {
      assert events[..n] == events;
    } else {
      var front := events[..|events| - 1];
      assert front[..n] == events[..n];
      NoneSince(front, n);
      RequestsUnfold(events);
      assert forall k | n <= k < |front| :: events[k] == front[k];
    }
  }

  // An operation's value stands if and only if nothing was requested since it began; otherwise the operation runs
  // again at once, and knows of every request so far.
  lemma ResolvedRunsAgainForNewerRequests(events: seq<Event>, r: nat, value: nat)
    requires r in Run(events).flows && Run(events).flows[r].phase.Operating?
    ensures var f, g := Run(events).flows[r], Run(events + [Resolve(r, value)]);
      && f.begunAt < |events|
      && g.flows == Run(events).flows[r :=
           if forall k | f.begunAt < k < |events| :: events[k] != Request then f.(phase := Settling(Resolved(value)))
           else Flow(Operating, Requests(events), |events|, f.operations + 1)]
      && g.active == Run(events).active
  {
    hide Run, Requests;
    var more := events + [Resolve(r, value)];
    assert more[..|events|] == events;
    RunUnfolds(more);
    OneRunAtATime(events);
    RequestsAreCounted(events);
    OperationsKnowRequests(events, r);
    NoneSince(events, Run(events).flows[r].begunAt + 1);
  }

  // A run that has its outcome keeps it, and makes way when it has settled.
  lemma SettledRunsMakeWay(s: Single, r: nat)
    requires Inv(s) && r in s.flows && s.flows[r].phase.Settling?
    ensures var g := Step(s, Settle(r));
      g.active == None && g.flows == s.flows[r := s.flows[r].(phase := Done(s.flows[r].phase.outcome))]
  {}

  class LatestSingleFlight {
    var requested: nat
    var active: Option<nat>
    var flows: map<nat, Flow>
    var nextName: nat

    ghost function View(): Single
      reads this
    {
      Single(requested, active, flows, nextName)
    }

    constructor ()
      ensures View() == IDLE
    {
      requested, active, flows, nextName := 0, None, map[], 0;
    }

    method Ask() returns (flow: nat)
      modifies this
      ensures View() == Step(old(View()), Request) && active == Some(flow)
    {
      requested := requested + 1;
      if active.None? {
        flows := flows[nextName := Flow(Operating, requested, nextName, 1)];
        active := Some(nextName);
      }
      flow := active.value;
      nextName := nextName + 1;
    }

    method OperationResolved(r: nat, value: nat)
      requires r in flows && flows[r].phase.Operating?
      modifies this
      ensures View() == Step(old(View()), Resolve(r, value))
    {
      var flow := flows[r];
      if flow.generation == requested {
        flow := flow.(phase := Settling(Resolved(value)));
      } else {
        flow := flow.(generation := requested, begunAt := nextName, operations := flow.operations + 1);
      }
      flows := flows[r := flow];
      nextName := nextName + 1;
    }

    method OperationRejected(r: nat, error: nat)
      requires r in flows && flows[r].phase.Operating?
      modifies this
      ensures View() == Step(old(View()), Reject(r, error))
    {
      flows := flows[r := flows[r].(phase := Settling(Rejected(error)))];
      nextName := nextName + 1;
    }

    method Finally(r: nat)
      requires r in flows && flows[r].phase.Settling?
      modifies this
      ensures View() == Step(old(View()), Settle(r))
    {
      flows := flows[r := flows[r].(phase := Done(flows[r].phase.outcome))];
      if active == Some(r) {
        active := None;
      }
      nextName := nextName + 1;
    }
  }
}

module Coalescers {

  // `queued` holds the tokens captured by the microtasks that have not run. `requests` and `paints`
  // are the indices of the last effective request and the last paint: history.
  datatype Coalescer = Coalescer(pending: bool, token: nat, disposed: bool, queued: seq<nat>,
                                 lastRequest: nat, lastPaint: nat, paints: nat, step: nat)

  const FRESH := Coalescer(false, 0, false, [], 0, 0, 0, 1)

  datatype Event = Request | Flush | Microtask | Dispose

  function Painted(s: Coalescer): Coalescer {
    s.(pending := false, lastPaint := s.step, paints := s.paints + 1)
  }

  function Effect(s: Coalescer, e: Event): Coalescer {
    match e
    case Request =>
      if s.disposed then s
      else if s.pending then s.(lastRequest := s.step)
      else s.(pending := true, token := s.token + 1, queued := s.queued + [s.token + 1], lastRequest := s.step)
    case Flush => if s.disposed then s else Painted(s.(token := s.token + 1))
    case Microtask =>
      if s.queued == [] then s
      else if s.disposed || !s.pending || s.queued[0] != s.token then s.(queued := s.queued[1..])
      else Painted(s.(queued := s.queued[1..]))
    case Dispose => s.(disposed := true, pending := false, token := s.token + 1)
  }

  function Step(s: Coalescer, e: Event): Coalescer {
    Effect(s, e).(step := s.step + 1)
  }

  function Run(events: seq<Event>): Coalescer {
    if events == [] then FRESH else Step(Run(events[..|events| - 1]), events[|events| - 1])
  }

  // A pending paint has exactly one microtask that will perform it: the last one queued.
  ghost predicate Inv(s: Coalescer) {
    && s.lastRequest < s.step && s.lastPaint < s.step
    && (forall i | 0 <= i < |s.queued| :: s.queued[i] <= s.token)
    && (forall i, k | 0 <= i < k < |s.queued| :: s.queued[i] < s.queued[k])
    && (s.pending ==> !s.disposed && s.queued != [] && s.queued[|s.queued| - 1] == s.token)
    && (!s.disposed ==> (s.pending <==> s.lastPaint < s.lastRequest))
  }

  lemma StepKeepsInv(s: Coalescer, e: Event)
    requires Inv(s)
    ensures Inv(Step(s, e))
  {}

  lemma {:induction false} EveryRunKeepsInv(events: seq<Event>)
    ensures Inv(Run(events))
  {
    if events != [] {
      EveryRunKeepsInv(events[..|events| - 1]);
      StepKeepsInv(Run(events[..|events| - 1]), events[|events| - 1]);
    }
  }

  function Drained(s: Coalescer, n: nat): Coalescer {
    if n == 0 then s else Step(Drained(s, n - 1), Microtask)
  }

  // Once the microtasks of the turn have run, every request has been painted after it was made, and all
  // requests since the last paint cost at most one.
  lemma {:induction false} TurnPaintsOnce(s: Coalescer, n: nat)
    requires Inv(s) && !s.disposed && n <= |s.queued|
    ensures var g := Drained(s, n);
      && Inv(g) && !g.disposed && g.lastRequest == s.lastRequest && g.token == s.token
      && g.queued == s.queued[n..]
      && (n < |s.queued| ==> g.pending == s.pending && g.paints == s.paints)
      && (n == |s.queued| ==>
            && !g.pending && g.lastRequest <= g.lastPaint
            && g.paints == s.paints + (if s.pending then 1 else 0))
  {
    if n > 0 {
      TurnPaintsOnce(s, n - 1);
      StepKeepsInv(Drained(s, n - 1), Microtask);
      assert s.queued[n - 1..][1..] == s.queued[n..];
    } else {
      assert s.queued[0..] == s.queued;
    }
  }

  // A request is pending until it is painted, with a microtask of its own unless one is pending already. What is
  // painted, and when: at once by a flush, or by the microtask of the pending request; never after disposal.
  lemma PaintsWhen(s: Coalescer, e: Event)
    requires Inv(s)
    ensures var g := Step(s, e);
      && (g.paints == s.paints + 1 <==>
            !s.disposed && (e == Flush || (e == Microtask && s.pending && |s.queued| == 1)
                            || (e == Microtask && s.pending && |s.queued| > 1 && s.queued[0] == s.token)))
      && (g.paints == s.paints || g.paints == s.paints + 1)
      && (g.paints == s.paints + 1 ==> !g.pending && g.lastPaint == s.step)
      && (e == Request && !s.disposed ==> g.pending && g.lastRequest == s.step)
      && (g.queued == if e == Request && !s.disposed && !s.pending then s.queued + [g.token]
                      else if e == Microtask && s.queued != [] then s.queued[1..] else s.queued)
      && (e == Dispose ==> g.disposed && !g.pending)
  {}

  class MicrotaskCoalescer {
    var pending: bool
    var token: nat
    var disposed: bool
    var queued: seq<nat>
    var paints: nat
    ghost var lastRequest: nat
    ghost var lastPaint: nat
    ghost var step: nat

    ghost function View(): Coalescer
      reads this
    {
      Coalescer(pending, token, disposed, queued, lastRequest, lastPaint, paints, step)
    }

    constructor ()
      ensures View() == FRESH
    {
      pending, token, disposed, queued, paints := false, 0, false, [], 0;
      lastRequest, lastPaint, step := 0, 0, 1;
    }

    method Paint()
      modifies this`pending, this`paints, this`lastPaint
      ensures View() == Painted(old(View()))
    {
      pending, paints, lastPaint := false, paints + 1, step;
    }

    method Ask()
      modifies this
      ensures View() == Step(old(View()), Request)
    {
      if !disposed {
        lastRequest := step;
        if !pending {
          pending, token := true, token + 1;
          queued := queued + [token];
        }
      }
      step := step + 1;
    }

    // Paint now; what was queued before no longer paints.
    method PaintNow()
      modifies this
      ensures View() == Step(old(View()), Flush)
    {
      if !disposed {
        token := token + 1;
        Paint();
      }
      step := step + 1;
    }

    method RunMicrotask()
      requires queued != []
      modifies this
      ensures View() == Step(old(View()), Microtask)
    {
      var captured := queued[0];
      queued := queued[1..];
      if !disposed && pending && captured == token {
        Paint();
      }
      step := step + 1;
    }

    method Close()
      modifies this
      ensures View() == Step(old(View()), Dispose)
    {
      disposed, pending, token := true, false, token + 1;
      step := step + 1;
    }
  }
}

module StoryGates {
  import opened Wrappers

  // A read, named by the event that asked for it. `begunAt` is when the read itself was called.
  datatype Read = Read(epoch: nat, begunAt: Option<nat>, settled: bool, cleared: bool)

  // A caller that waits for what runs now, and then for a read of its own. `then` reactions were
  // registered at `askedAt`; they run after the `finally` of the read they wait for.
  datatype Waiter = Waiter(askedAt: nat, epoch: nat, first: nat, second: Option<nat>)

  datatype Gate = Gate(active: Option<nat>, flights: map<nat, Read>, waiters: map<nat, Waiter>, step: nat)

  const IDLE := Gate(None, map[], map[], 0)

  datatype Event =
    | Ask(epoch: nat, afterCurrent: bool)
    | Begin(read: nat)
    | End(read: nat)
    | Clear(read: nat)
    | Continue(waiter: nat)

  function ReadFor(s: Gate, epoch: nat): nat {
    if s.active.Some? && s.active.value in s.flights && s.flights[s.active.value].epoch == epoch
    then s.active.value else s.step
  }

  function Started(s: Gate, epoch: nat): Gate {
    var r := ReadFor(s, epoch);
    s.(active := Some(r), flights := if r == s.step then s.flights[r := Read(epoch, None, false, false)] else s.flights)
  }

  function Effect(s: Gate, e: Event): Gate {
    match e
    case Ask(epoch, afterCurrent) =>
      if afterCurrent && ReadFor(s, epoch) != s.step
      then s.(waiters := s.waiters[s.step := Waiter(s.step, epoch, ReadFor(s, epoch), None)])
      else Started(s, epoch)
    case Begin(r) =>
      if r in s.flights && s.flights[r].begunAt.None?
      then s.(flights := s.flights[r := s.flights[r].(begunAt := Some(s.step))]) else s
    case End(r) =>
      if r in s.flights && s.flights[r].begunAt.Some? && !s.flights[r].settled
      then s.(flights := s.flights[r := s.flights[r].(settled := true)]) else s
    case Clear(r) =>
      if r in s.flights && s.flights[r].settled && !s.flights[r].cleared
      then s.(flights := s.flights[r := s.flights[r].(cleared := true)],
              active := if s.active == Some(r) then None else s.active)
      else s
    case Continue(w) =>
      // The `finally` was registered when the read started, before any waiter joined it.
      if w in s.waiters && s.waiters[w].second.None?
         && s.waiters[w].first in s.flights && s.flights[s.waiters[w].first].cleared
      then
        var waiter := s.waiters[w];
        Started(s, waiter.epoch)
          .(waiters := s.waiters[w := waiter.(second := Some(ReadFor(s, waiter.epoch)))])
      else s
  }

  function Step(s: Gate, e: Event): Gate {
    Effect(s, e).(step := s.step + 1)
  }

  function Run(events: seq<Event>): Gate {
    if events == [] then IDLE else Step(Run(events[..|events| - 1]), events[|events| - 1])
  }

  ghost predicate ReadOk(r: nat, read: Read, step: nat) {
    && r < step
    && (read.begunAt.Some? ==> r < read.begunAt.value < step)
    && (read.settled ==> read.begunAt.Some?) && (read.cleared ==> read.settled)
  }

  // What a waiter waits for first was asked for before it, and what it waits for next after it.
  ghost predicate WaiterOk(s: Gate, w: nat, waiter: Waiter) {
    && w < s.step && waiter.askedAt == w && waiter.first < w && waiter.first in s.flights
    && (waiter.second.None? ==> s.active.None? || s.active.value == waiter.first || w < s.active.value)
    && (waiter.second.Some? ==>
          && w < waiter.second.value && waiter.second.value in s.flights
          && s.flights[waiter.second.value].epoch == waiter.epoch)
  }

  ghost predicate Inv(s: Gate) {
    && (s.active.Some? ==> s.active.value in s.flights && !s.flights[s.active.value].cleared)
    && (forall r | r in s.flights :: ReadOk(r, s.flights[r], s.step))
    && (forall w | w in s.waiters :: WaiterOk(s, w, s.waiters[w]))
  }

  // Reads keep their epoch, and the gate moves on only to a read asked for now.
  ghost predicate Advances(s: Gate, g: Gate) {
    && g.step == s.step + 1
    && (forall r | r in s.flights :: r in g.flights && g.flights[r].epoch == s.flights[r].epoch)
    && (g.active == s.active || g.active == None || g.active == Some(s.step))
  }

  lemma StepAdvances(s: Gate, e: Event)
    requires Inv(s)
    ensures Advances(s, Step(s, e))
  {}

  lemma WaiterStays(s: Gate, g: Gate, w: nat, waiter: Waiter)
    requires WaiterOk(s, w, waiter) && Advances(s, g)
    ensures WaiterOk(g, w, waiter)
  {}

  lemma ReadsStayOk(s: Gate, e: Event)
    requires Inv(s)
    ensures var g := Step(s, e);
      && (g.active.Some? ==> g.active.value in g.flights && !g.flights[g.active.value].cleared)
      && (forall r | r in g.flights :: ReadOk(r, g.flights[r], g.step))
  {
    hide WaiterOk;
  }

  lemma NewWaiterOk(s: Gate, e: Event, w: nat)
    requires Inv(s) && w in Step(s, e).waiters && (w in s.waiters ==> Step(s, e).waiters[w] != s.waiters[w])
    ensures WaiterOk(Step(s, e), w, Step(s, e).waiters[w])
  {}

  lemma StepKeepsInv(s: Gate, e: Event)
    requires Inv(s)
    ensures Inv(Step(s, e))
  {
    hide Step, WaiterOk, ReadOk, Advances;
    var g := Step(s, e);
    StepAdvances(s, e);
    ReadsStayOk(s, e);
    forall w | w in g.waiters ensures WaiterOk(g, w, g.waiters[w]) {
      if w in s.waiters && g.waiters[w] == s.waiters[w] {
        WaiterStays(s, g, w, s.waiters[w]);
      } else {
        NewWaiterOk(s, e, w);
      }
    }
  }

  lemma {:induction false} EveryRunKeepsInv(events: seq<Event>)
    ensures Inv(Run(events)) && Run(events).step == |events|
  {
    if events != [] {
      EveryRunKeepsInv(events[..|events| - 1]);
      StepKeepsInv(Run(events[..|events| - 1]), events[|events| - 1]);
    }
  }

  // What call `q` for a read of its own waits for: a read asked for there and then, or the current read first.
  ghost predicate Asked(s: Gate, q: nat, epoch: nat, waits: bool) {
    if waits then q in s.waiters && s.waiters[q].epoch == epoch else q in s.flights && s.flights[q].epoch == epoch
  }

  lemma AskStays(s: Gate, e: Event, q: nat, epoch: nat, waits: bool)
    requires Inv(s) && Asked(s, q, epoch, waits)
    ensures Asked(Step(s, e), q, epoch, waits)
  {
    if waits { assert WaiterOk(s, q, s.waiters[q]); }
  }

  lemma {:induction false} AskedOnce(events: seq<Event>, q: nat, epoch: nat)
    requires q < |events| && events[q] == Ask(epoch, true)
    ensures Asked(Run(events), q, epoch, ReadFor(Run(events[..q]), epoch) != q)
  {
    hide Step, Inv, Asked;
    var front := events[..|events| - 1];
    EveryRunKeepsInv(front);
    if q == |front| {
      AskIsNoted(Run(front), epoch);
    } else {
      assert front[..q] == events[..q];
      AskedOnce(front, q, epoch);
      AskStays(Run(front), events[|front|], q, epoch, ReadFor(Run(events[..q]), epoch) != q);
    }
  }

  lemma AskIsNoted(s: Gate, epoch: nat)
    ensures Asked(Step(s, Ask(epoch, true)), s.step, epoch, ReadFor(s, epoch) != s.step)
  {}

  // Who asks for a read after the current one settles only with a read of the same epoch that was asked
  // for no earlier than the call, and begun after it, whether the call found a read of its epoch or not.
  lemma AfterCurrentReadsAnew(events: seq<Event>, q: nat, epoch: nat)
    requires q < |events| && events[q] == Ask(epoch, true)
    ensures var s := Run(events); var found := ReadFor(Run(events[..q]), epoch) != q;
      && (found ==> q in s.waiters && s.waiters[q].epoch == epoch)
      && (found ==> s.waiters[q].second.Some? ==> q < s.waiters[q].second.value)
      && (!found || s.waiters[q].second.Some? ==>
            var read := if found then s.waiters[q].second.value else q;
            && read in s.flights && s.flights[read].epoch == epoch
            && (s.flights[read].settled ==> s.flights[read].begunAt.Some? && q < s.flights[read].begunAt.value))
  {
    EveryRunKeepsInv(events);
    AskedOnce(events, q, epoch);
    var s := Run(events);
    hide Run, ReadFor;
    if q in s.waiters { assert WaiterOk(s, q, s.waiters[q]); }
    forall r | r in s.flights ensures ReadOk(r, s.flights[r], |events|) {}
  }

  // A caller without that wish joins the read that runs for its epoch, and no other epoch's.
  lemma AskJoinsItsEpoch(s: Gate, epoch: nat)
    requires Inv(s)
    ensures var g := Step(s, Ask(epoch, false));
      && g.active.Some? && g.active.value in g.flights && g.flights[g.active.value].epoch == epoch
      && (g.active == s.active <==> s.active.Some? && s.flights[s.active.value].epoch == epoch)
  {}

  predicate Disturbs(s: Gate, e: Event, r: nat)
    requires r in s.flights
  {
    match e
    case Ask(epoch, _) => epoch != s.flights[r].epoch
    case Continue(w) => w in s.waiters && s.waiters[w].epoch != s.flights[r].epoch
    case Clear(c) => c == r
    case _ => false
  }

  function RunFrom(s: Gate, events: seq<Event>): Gate {
    if events == [] then s else Step(RunFrom(s, events[..|events| - 1]), events[|events| - 1])
  }

  ghost predicate Undisturbed(s: Gate, events: seq<Event>, r: nat) {
    forall i | 0 <= i < |events| ::
      r in RunFrom(s, events[..i]).flights && !Disturbs(RunFrom(s, events[..i]), events[i], r)
  }

  lemma StaysActive(s: Gate, e: Event, r: nat)
    requires Inv(s) && s.active == Some(r) && r in s.flights && !Disturbs(s, e, r)
    ensures Step(s, e).active == Some(r) && r in Step(s, e).flights
    ensures Step(s, e).flights[r].epoch == s.flights[r].epoch
  {}

  lemma {:induction false} UndisturbedStays(s: Gate, events: seq<Event>, r: nat)
    requires Inv(s) && s.active == Some(r) && r in s.flights && Undisturbed(s, events, r)
    ensures var g := RunFrom(s, events);
      Inv(g) && g.active == Some(r) && r in g.flights && g.flights[r].epoch == s.flights[r].epoch
  {
    hide Step, Inv, Disturbs;
    if events != [] {
      var front := events[..|events| - 1];
      assert forall i | 0 <= i < |front| :: front[..i] == events[..i] && front[i] == events[i];
      assert Undisturbed(s, front, r);
      UndisturbedStays(s, front, r);
      StaysActive(RunFrom(s, front), events[|events| - 1], r);
      StepKeepsInv(RunFrom(s, front), events[|events| - 1]);
    }
  }

  // Callers of one epoch that waited share the trailing read, as long as no other epoch takes the gate
  // and the read still runs when the later one goes on.
  lemma WaitersShareTheTrailingRead(s: Gate, r: nat, between: seq<Event>, w: nat)
    requires Inv(s) && s.active == Some(r) && r in s.flights && Undisturbed(s, between, r)
    requires var g := RunFrom(s, between);
      && w in g.waiters && g.waiters[w].second.None? && g.waiters[w].epoch == s.flights[r].epoch
      && g.waiters[w].first in g.flights && g.flights[g.waiters[w].first].cleared
    ensures var after := Step(RunFrom(s, between), Continue(w));
      w in after.waiters && after.waiters[w].second == Some(r) && after.flights == RunFrom(s, between).flights
  {
    UndisturbedStays(s, between, r);
    hide RunFrom;
  }

  // A read is begun, settles and makes way for itself only, each once.
  lemma ReadsGoOn(s: Gate, r: nat)
    requires Inv(s) && r in s.flights
    ensures var read := s.flights[r];
      && Step(s, Begin(r)) == s.(step := s.step + 1, flights :=
           if read.begunAt.None? then s.flights[r := read.(begunAt := Some(s.step))] else s.flights)
      && Step(s, End(r)) == s.(step := s.step + 1, flights :=
           if read.begunAt.Some? && !read.settled then s.flights[r := read.(settled := true)] else s.flights)
      && Step(s, Clear(r)) == s.(step := s.step + 1, flights :=
           if read.settled && !read.cleared then s.flights[r := read.(cleared := true)] else s.flights,
           active := if read.settled && !read.cleared && s.active == Some(r) then None else s.active)
  {
    hide WaiterOk;
  }

  // A caller that waited for the current read goes on when that read has made way: with the read that runs for
  // its epoch then, or with a new one.
  lemma WaitersGoOn(s: Gate, w: nat)
    requires Inv(s) && w in s.waiters && s.waiters[w].second.None?
    requires s.waiters[w].first in s.flights && s.flights[s.waiters[w].first].cleared
    ensures var g, epoch := Step(s, Continue(w)), s.waiters[w].epoch;
      && w in g.waiters && g.waiters[w].second.Some? && g.active == g.waiters[w].second
      && if s.active.Some? && s.flights[s.active.value].epoch == epoch
         then g.active == s.active && g.flights == s.flights
         else g.active == Some(s.step) && g.flights == s.flights[s.step := Read(epoch, None, false, false)]
  {
    hide WaiterOk;
  }

  class StoryRefreshGate {
    var active: Option<nat>
    var flights: map<nat, Read>
    var waiters: map<nat, Waiter>
    var nextName: nat

    ghost function View(): Gate
      reads this
    {
      Gate(active, flights, waiters, nextName)
    }

    constructor ()
      ensures View() == IDLE
    {
      active, flights, waiters, nextName := None, map[], map[], 0;
    }

    // The read to wait for: the one that runs for this epoch, or a new one.
    method RunRead(epoch: nat) returns (read: nat)
      requires nextName !in flights
      modifies this`active, this`flights
      ensures View() == Started(old(View()), epoch) && read == ReadFor(old(View()), epoch)
    {
      if active.Some? && active.value in flights && flights[active.value].epoch == epoch {
        return active.value;
      }
      read := nextName;
      active, flights := Some(read), flights[read := Read(epoch, None, false, false)];
    }

    method AskFor(epoch: nat, afterCurrent: bool)
      requires nextName !in flights
      modifies this
      ensures View() == Step(old(View()), Ask(epoch, afterCurrent))
    {
      if afterCurrent && active.Some? && active.value in flights && flights[active.value].epoch == epoch {
        waiters := waiters[nextName := Waiter(nextName, epoch, active.value, None)];
      } else {
        var _ := RunRead(epoch);
      }
      nextName := nextName + 1;
    }

    method GoOn(w: nat)
      requires w in waiters && waiters[w].second.None? && nextName !in flights
      requires waiters[w].first in flights && flights[waiters[w].first].cleared
      modifies this
      ensures View() == Step(old(View()), Continue(w))
    {
      var read := RunRead(waiters[w].epoch);
      waiters := waiters[w := waiters[w].(second := Some(read))];
      nextName := nextName + 1;
    }

    // The read's `finally`: it makes way only for itself.
    method ClearRead(r: nat)
      requires r in flights && flights[r].settled && !flights[r].cleared
      modifies this
      ensures View() == Step(old(View()), Clear(r))
    {
      flights := flights[r := flights[r].(cleared := true)];
      if active == Some(r) {
        active := None;
      }
      nextName := nextName + 1;
    }
  }
}
