// What a take gets, what becomes of the checkout it does not get, and how the promise chain moves on.
module IntakeTakes {
  import opened IntakePreparations
  import opened Wrappers

  // ---- One take ----

  // Everything the take was queued behind is done, and it has not gone on yet.
  predicate MayResume(s: Intake, t: nat) {
    t in s.takers && s.takers[t].result.None? && s.takers[t].waitsFor <= s.done
  }

  // What is held was scheduled for the key the take asks for.
  predicate Matches(s: Intake, t: nat) {
    t in s.takers && s.held.Some? && s.held.value in s.checkouts && s.checkouts[s.held.value].key == s.takers[t].key
  }

  // A take that goes on gets the checkout that is held if and only if it was scheduled for the take's key, and
  // then owns it: no discard of it begins, and what was scheduled before is out of date. Otherwise the take
  // gets nothing, what is held stays held, and a cleaning link is added behind the others.
  lemma TakesTheHeldCheckout(s: Intake, t: nat)
    requires Inv(s) && MayResume(s, t)
    ensures var g := Step(s, Resume(t));
      && g.takers.Keys == s.takers.Keys && (forall u | u in s.takers && u != t :: g.takers[u] == s.takers[u])
      && g.checkouts == s.checkouts && g.discards == s.discards && g.done == s.done
      && g.generation == s.generation + 1
      && if Matches(s, t)
         then && g.takers[t] == Taker(s.takers[t].key, s.takers[t].waitsFor, Some(s.held)) && g.held == None
              && g.homes == s.homes[s.held.value := Taken(t)] && g.links == s.links
         else && g.takers[t] == Taker(s.takers[t].key, s.takers[t].waitsFor, Some(None)) && g.held == s.held
              && g.homes == s.homes && g.links == s.links + [Link(Clean, s.generation + 1, s.step, Queued)]
  {
    hide Inv;
  }

  // What is held stays held until the next link begins, or a take of its key goes on.
  lemma HeldIsLeftAlone(s: Intake, e: Event, id: nat)
    requires Inv(s) && s.held == Some(id)
    ensures Step(s, e).held == Some(id) <==>
            !(e == Run && s.done < |s.links|) && !(e.Resume? && MayResume(s, e.taker) && Matches(s, e.taker))
  {
    hide HomesOk, TakersOk, ChainOk, GivenHomes, GivenDiscards;
    HeldWaits(s);
  }

  lemma HeldWaits(s: Intake)
    requires Inv(s) && s.held.Some?
    ensures s.done < |s.links| ==> s.links[s.done].phase == Queued
    ensures s.held.value in s.checkouts
  {
    hide HomesOk, TakersOk, ChainOk;
  }

  // A take waits for the links that are there when it is called, and has no result before.
  lemma TakeWaits(s: Intake, key: nat)
    ensures Step(s, Take(key)) == s.(takers := s.takers[s.step := Taker(key, |s.links|, None)], step := s.step + 1)
  {}

  // ---- A take that meets a checkout prepared for it ----

  ghost predicate Kept(s: Intake, id: nat, key: nat) {
    && s.held == Some(id) && s.done == |s.links| && id in s.checkouts && s.checkouts[id].key == key
    && id in s.homes && Count(s.discards, id) == 0
  }

  lemma KeptQuietly(s: Intake, e: Event, id: nat, key: nat)
    requires Kept(s, id, key) && !Outdates(s, e)
    ensures Kept(Step(s, e), id, key)
  {}

  lemma LaterIsYounger(s: Intake, i: nat)
    requires Inv(s) && s.done < i < |s.links|
    ensures s.links[s.done].generation < s.links[i].generation <= s.generation
  {
    hide HomesOk, TakersOk, HeldOk;
    assert LinkOk(s.links[i], s.generation, s.step);
  }

  // The link whose preparation ended was the newest, so the chain is idle.
  lemma NewestIsLast(s: Intake)
    requires Inv(s) && Running(s, Preparing) && s.links[s.done].generation == s.generation
    ensures s.done + 1 == |s.links|
  {
    hide Inv;
    if s.done + 1 < |s.links| { LaterIsYounger(s, s.done + 1); }
  }

  lemma KeptFromTheStart(s: Intake, owned: bool)
    requires Inv(s) && Running(s, Preparing) && s.links[s.done].kind.Prepare?
    requires s.links[s.done].generation == s.generation
    ensures Kept(Step(s, Prepared(Some(owned))), s.step, s.links[s.done].kind.key)
  {
    hide TakersOk, ChainOk, HeldOk;
    NewestIsLast(s);
    NotDiscardedYet(s);
  }

  lemma NotDiscardedYet(s: Intake)
    requires Inv(s)
    ensures Count(s.discards, s.step) == 0
  {
    hide TakersOk, ChainOk, HeldOk;
  }

  // The preparation that ended in event `p` prepared a checkout for `key`, scheduled in event `a`.
  ghost predicate PreparedFor(events: seq<Event>, a: nat, p: nat, key: nat)
    requires p < |events|
  {
    var s := RunAll(events[..p]);
    && events[p].Prepared? && events[p].owned.Some? && Running(s, Preparing)
    && s.links[s.done].kind == Prepare(key) && s.links[s.done].addedAt == a
  }

  lemma {:induction false} StaysKept(events: seq<Event>, a: nat, p: nat, r: nat, key: nat)
    requires p < r <= |events| && PreparedFor(events, a, p, key) && Undisturbed(events, a, r)
    ensures a < p && Kept(RunAll(events[..r]), p, key)
  {
    hide RunAll, Step, Inv, Outdates, Kept;
    var s := RunAll(events[..p]);
    EveryCheckoutHasOneOwner(events[..p]);
    CurrentSoFar(events, p, s.done);
    if r == p + 1 {
      RunsOn(events, p);
      KeptFromTheStart(s, events[p].owned.value);
    } else {
      StaysKept(events, a, p, r - 1, key);
      RunsOn(events, r - 1);
      KeptQuietly(RunAll(events[..r - 1]), events[r - 1], p, key);
    }
  }

  lemma TakersWaitForLinks(s: Intake, e: Event, t: nat)
    requires (forall u | u in s.takers :: s.takers[u].waitsFor <= |s.links|) && t in Step(s, e).takers
    ensures Step(s, e).takers[t].waitsFor <= |Step(s, e).links|
  {
    hide GivenUp, Advanced, GivenHomes, GivenDiscards, AfterCleanup, AfterPreparation;
    LinksStay(s, e);
    if e.Run? || e.Cleaned? || e.Prepared? { WorkLeavesTakers(s, e); }
  }

  lemma WorkLeavesTakers(s: Intake, e: Event)
    requires e.Run? || e.Cleaned? || e.Prepared?
    ensures Step(s, e).takers == s.takers
  {
    hide GivenHomes, GivenDiscards;
  }

  lemma {:induction false} TakersAreBehindLinks(events: seq<Event>)
    ensures forall t | t in RunAll(events).takers :: RunAll(events).takers[t].waitsFor <= |RunAll(events).links|
  {
    hide Step;
    if events != [] {
      var front := events[..|events| - 1];
      TakersAreBehindLinks(front);
      forall t | t in RunAll(events).takers
        ensures RunAll(events).takers[t].waitsFor <= |RunAll(events).links|
      {
        TakersWaitForLinks(RunAll(front), events[|front|], t);
      }
    }
  }

  // Over every run: a take that goes on after the checkout of its key was prepared, with nothing scheduled or
  // cancelled and no other take gone on since that checkout was scheduled, gets exactly this checkout, and its
  // discard never begins; when the take was called does not matter.
  lemma TakeGetsThePreparedCheckout(events: seq<Event>, a: nat, p: nat, r: nat, t: nat, key: nat)
    requires p < r < |events| && PreparedFor(events, a, p, key) && Undisturbed(events, a, r)
    requires events[r] == Resume(t) && t in RunAll(events[..r]).takers
    requires RunAll(events[..r]).takers[t].key == key && RunAll(events[..r]).takers[t].result.None?
    ensures var g := RunAll(events[..r + 1]);
      && t in g.takers && g.takers[t].result == Some(Some(p)) && p in g.homes && g.homes[p] == Taken(t)
      && g.held == None
    ensures var s := RunAll(events); p in s.homes && s.homes[p] == Taken(t) && Count(s.discards, p) == 0
  {
    hide RunAll, Step, Inv, Outdates;
    StaysKept(events, a, p, r, key);
    EveryCheckoutHasOneOwner(events[..r]);
    TakersAreBehindLinks(events[..r]);
    RunsOn(events, r);
    TakesTheHeldCheckout(RunAll(events[..r]), t);
    TakenForGood(events, r + 1, p, t);
  }

  lemma {:induction false} TakenForGood(events: seq<Event>, n: nat, id: nat, t: nat)
    requires n <= |events| && id in RunAll(events[..n]).homes && RunAll(events[..n]).homes[id] == Taken(t)
    ensures var s := RunAll(events); id in s.homes && s.homes[id] == Taken(t) && Count(s.discards, id) == 0
  {
    hide RunAll, Step, Inv;
    if n == |events| {
      assert events[..n] == events;
    } else {
      var front := events[..|events| - 1];
      assert front[..n] == events[..n] && events[..|front|] == front && events[..|front| + 1] == events;
      TakenForGood(front, n, id, t);
      EveryCheckoutHasOneOwner(front);
      HomesAreFinal(RunAll(front), events[|front|], id);
      RunsOn(events, |front|);
    }
    EveryCheckoutHasOneOwner(events);
    TakenIsNotDiscarded(RunAll(events), id);
  }

  lemma TakenIsNotDiscarded(s: Intake, id: nat)
    requires Inv(s) && id in s.homes && s.homes[id].Taken?
    ensures Count(s.discards, id) == 0
  {
    hide ChainOk, HeldOk, TakersOk;
  }

  // ---- The chain ----

  // The link that an event adds, if any.
  function Adds(s: Intake, e: Event): Option<Kind> {
    match e
    case Schedule(key) => Some(Prepare(key))
    case Cancel => Some(Clean)
    case Resume(t) => if MayResume(s, t) && !Matches(s, t) then Some(Clean) else None
    case _ => None
  }

  lemma LinksAreAdded(s: Intake, e: Event)
    requires Inv(s) && (e.Schedule? || e.Cancel? || e.Take? || e.Resume?)
    ensures var g := Step(s, e);
      && g.done == s.done
      && g.links == if Adds(s, e).None? then s.links
                    else s.links + [Link(Adds(s, e).value, s.generation + 1, s.step, Queued)]
  {
    hide Inv;
    if e.Resume? && MayResume(s, e.taker) { TakesTheHeldCheckout(s, e.taker); }
  }

  // The phase that the link at work moves to, if it moves.
  function Moved(s: Intake, e: Event): Option<Phase>
    requires s.done < |s.links|
  {
    var link := s.links[s.done];
    var current := link.kind.Prepare? && link.generation == s.generation;
    match e
    case Run => if link.phase == Queued then Some(Clearing) else None
    case Cleaned =>
      if link.phase == Clearing then Some(if current then Preparing else Done)
      else if link.phase == GivingUp then Some(Done) else None
    case Prepared(_) => if link.phase == Preparing then Some(if current then Done else GivingUp) else None
    case _ => None
  }

  // Every other link stays as it is, and the chain goes on to the next one exactly when a link is done.
  lemma TheChainMoves(s: Intake, e: Event)
    requires Inv(s) && (e.Run? || e.Cleaned? || e.Prepared?)
    ensures var g := Step(s, e);
      if s.done == |s.links| || Moved(s, e).None? then g.links == s.links && g.done == s.done
      else && g.links == s.links[s.done := s.links[s.done].(phase := Moved(s, e).value)]
           && g.done == if Moved(s, e) == Some(Done) then s.done + 1 else s.done
  {
    hide HomesOk, TakersOk, HeldOk, GivenHomes, GivenDiscards;
    if s.done < |s.links| { assert LinkOk(s.links[s.done], s.generation, s.step); }
  }

  // What is given up and when: a link that begins gives up what is held, and a preparation that is out of date
  // what it brought; the discard of an owned checkout begins then, and of no other.
  lemma GivenUpWhen(s: Intake, e: Event, id: nat)
    requires Inv(s) && (id in s.homes || (e.Prepared? && id == s.step))
    ensures var g := Step(s, e);
      Count(g.discards, id) > Count(s.discards, id) <==>
        || (e == Run && s.done < |s.links| && s.held == Some(id) && id in s.checkouts && s.checkouts[id].owned)
        || (e == Prepared(Some(true)) && id == s.step && s.done < |s.links| && s.links[s.done].phase == Preparing
            && s.links[s.done].generation != s.generation)
  {
    hide ChainOk, TakersOk, HomesOk;
    if s.held.Some? { HeldWaits(s); }
    NotDiscardedYet(s);
    HomesAreOld(s);
    if s.done < |s.links| { PreparingPrepares(s); }
    if Running(s, Preparing) { NothingHeldAtWork(s); }
  }

  lemma HomesAreOld(s: Intake)
    requires Inv(s)
    ensures s.step !in s.homes
  {
    hide ChainOk, HeldOk, TakersOk;
  }

  lemma PreparingPrepares(s: Intake)
    requires Inv(s) && s.done < |s.links|
    ensures s.links[s.done].phase.Preparing? ==> s.links[s.done].kind.Prepare?
  {
    hide HomesOk, HeldOk, TakersOk;
    assert LinkOk(s.links[s.done], s.generation, s.step);
  }
}
