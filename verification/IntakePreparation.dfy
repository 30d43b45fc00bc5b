// IntakeWorktreePreparation of apps/vscode/src/intake-worktree-preparation.ts: one speculative checkout
// per panel is prepared ahead of a click, and is either taken once or given up once.
//
// The promise chain is the sequence `links`; a link runs when those before it are done. Git work ends
// with any result. A checkout is named by the event that reported it.
module IntakePreparations {
  import opened Wrappers

  datatype Phase = Queued | Clearing | Preparing | GivingUp | Done
  datatype Kind = Prepare(key: nat) | Clean

  // `generation` is what a preparation compares with; a cleaning link does not use it.
  datatype Link = Link(kind: Kind, generation: nat, addedAt: nat, phase: Phase)

  datatype Checkout = Checkout(key: nat, owned: bool, generation: nat)
  datatype Home = Held | Taken(taker: nat) | Discarded | Dropped

  // `waitsFor` is the length of the chain when take was called.
  datatype Taker = Taker(key: nat, waitsFor: nat, result: Option<Option<nat>>)

  // History: every checkout that was ever held, where it ended up, and how often its discard was begun.
  datatype Intake = Intake(generation: nat, held: Option<nat>, links: seq<Link>, done: nat, takers: map<nat, Taker>,
                           checkouts: map<nat, Checkout>, homes: map<nat, Home>, discards: map<nat, nat>, step: nat)

  const IDLE := Intake(0, None, [], 0, map[], map[], map[], map[], 0)

  datatype Event =
    | Schedule(key: nat)
    | Cancel
    | Take(key: nat)
    | Run                                  // the next link begins
    | Cleaned                              // the discard it awaits has ended
    | Prepared(owned: Option<bool>)        // the checkout is ready, or could not be made
    | Resume(taker: nat)

  function Append(s: Intake, kind: Kind): Intake {
    s.(generation := s.generation + 1, links := s.links + [Link(kind, s.generation + 1, s.step, Queued)])
  }

  // The first half of cleanup: nothing is held any more, and an owned checkout's discard begins.
  function GivenUp(s: Intake): Intake {
    s.(held := None, homes := GivenHomes(s.homes, s.checkouts, s.held),
       discards := GivenDiscards(s.discards, s.checkouts, s.held))
  }

  function GivenHomes(homes: map<nat, Home>, checkouts: map<nat, Checkout>, held: Option<nat>): map<nat, Home> {
    if held.Some? && held.value in checkouts
    then homes[held.value := if checkouts[held.value].owned then Discarded else Dropped] else homes
  }

  function GivenDiscards(discards: map<nat, nat>, checkouts: map<nat, Checkout>, held: Option<nat>): map<nat, nat> {
    if held.Some? && held.value in checkouts && checkouts[held.value].owned
    then discards[held.value := Count(discards, held.value) + 1] else discards
  }

  function Count(discards: map<nat, nat>, id: nat): nat {
    if id in discards then discards[id] else 0
  }

  function Advanced(s: Intake, phase: Phase): Intake
    requires s.done < |s.links|
  {
    s.(links := s.links[s.done := s.links[s.done].(phase := phase)],
       done := if phase == Done then s.done + 1 else s.done)
  }

  // After the first cleanup: a cleaning link ends, an outdated preparation too, a current one prepares.
  function AfterCleanup(s: Intake): Intake
    requires s.done < |s.links|
  {
    var link := s.links[s.done];
    if link.kind.Prepare? && link.generation == s.generation then Advanced(s, Preparing) else Advanced(s, Done)
  }

  function Holding(s: Intake, link: Link, owned: bool): Intake
    requires link.kind.Prepare?
  {
    s.(held := Some(s.step),
       checkouts := s.checkouts[s.step := Checkout(link.kind.key, owned, link.generation)],
       homes := s.homes[s.step := Held])
  }

  // The checkout is held; if anything was scheduled, cancelled or taken meanwhile it is given up at once.
  function AfterPreparation(s: Intake, owned: Option<bool>): Intake
    requires s.done < |s.links| && s.links[s.done].kind.Prepare?
  {
    var link := s.links[s.done];
    var g := if owned.Some? then Holding(s, link, owned.value) else s;
    if link.generation == s.generation then Advanced(g, Done) else Advanced(GivenUp(g), GivingUp)
  }

  function HeldKey(s: Intake): Option<nat> {
    if s.held.Some? && s.held.value in s.checkouts then Some(s.checkouts[s.held.value].key) else None
  }

  function Resumed(s: Intake, t: nat): Intake
    requires t in s.takers
  {
    if HeldKey(s) == Some(s.takers[t].key) && s.held.Some?
    then s.(held := None, generation := s.generation + 1, homes := s.homes[s.held.value := Taken(t)],
            takers := s.takers[t := s.takers[t].(result := Some(s.held))])
    else Append(s, Clean).(takers := s.takers[t := s.takers[t].(result := Some(None))])
  }

  predicate Running(s: Intake, phase: Phase) {
    s.done < |s.links| && s.links[s.done].phase == phase
  }

  function Effect(s: Intake, e: Event): Intake {
    match e
    case Schedule(key) => Append(s, Prepare(key))
    case Cancel => Append(s, Clean)
    case Take(key) => s.(takers := s.takers[s.step := Taker(key, |s.links|, None)])
    case Run => if Running(s, Queued) then Advanced(GivenUp(s), Clearing) else s
    case Cleaned =>
      if Running(s, Clearing) then AfterCleanup(s) else if Running(s, GivingUp) then Advanced(s, Done) else s
    case Prepared(owned) =>
      if Running(s, Preparing) && s.links[s.done].kind.Prepare? then AfterPreparation(s, owned) else s
    case Resume(t) =>
      if t in s.takers && s.takers[t].result.None? && s.takers[t].waitsFor <= s.done then Resumed(s, t) else s
  }

  function Step(s: Intake, e: Event): Intake {
    Effect(s, e).(step := s.step + 1)
  }

  function RunAll(events: seq<Event>): Intake {
    if events == [] then IDLE else Step(RunAll(events[..|events| - 1]), events[|events| - 1])
  }

  // ---- What every step keeps ----

  ghost predicate LinkOk(link: Link, generation: nat, n: nat) {
    && link.addedAt < n && link.generation <= generation
    && (link.phase.Preparing? || link.phase.GivingUp? ==> link.kind.Prepare?)
  }

  // Links before `done` have ended, links after it have not begun, and later links are younger.
  ghost predicate ChainOk(links: seq<Link>, done: nat, generation: nat, n: nat) {
    && done <= |links|
    && (forall i | 0 <= i < |links| :: LinkOk(links[i], generation, n))
    && (forall i | 0 <= i < done :: links[i].phase == Done)
    && (forall i | done < i < |links| :: links[i].phase == Queued)
    && (done < |links| ==> links[done].phase != Done)
    && (forall i, k | 0 <= i < k < |links| :: links[i].generation < links[k].generation)
  }

  // What is held came from the link that ended last; while a link is at work nothing is held; and
  // a link that will give it up is waiting as soon as it is out of date.
  ghost predicate HeldOk(held: Option<nat>, checkouts: map<nat, Checkout>, links: seq<Link>, done: nat,
                         generation: nat) {
    held.Some? ==>
      && held.value in checkouts && 0 < done <= |links|
      && links[done - 1].kind == Prepare(checkouts[held.value].key)
      && links[done - 1].generation == checkouts[held.value].generation
      && (done < |links| ==> links[done].phase == Queued)
      && (done == |links| ==> checkouts[held.value].generation == generation)
  }

  // Every checkout is held, taken, discarded or dropped, and its discard begins once if it was owned
  // and given up, and otherwise never.
  ghost predicate HomesOk(homes: map<nat, Home>, checkouts: map<nat, Checkout>, discards: map<nat, nat>,
                          held: Option<nat>, n: nat) {
    && homes.Keys == checkouts.Keys
    && (held.Some? ==> held.value in homes)
    && (forall id | id in homes ::
          && id < n && (homes[id] == Held <==> held == Some(id))
          && (homes[id] == Discarded ==> checkouts[id].owned) && (homes[id] == Dropped ==> !checkouts[id].owned))
    && (forall id :: Count(discards, id) == if id in homes && homes[id] == Discarded then 1 else 0)
  }

  ghost predicate TakersOk(takers: map<nat, Taker>, homes: map<nat, Home>, checkouts: map<nat, Checkout>, n: nat) {
    && (forall t | t in takers :: t < n)
    && (forall t, id | t in takers && takers[t].result == Some(Some(id)) ::
          id in homes && homes[id] == Taken(t) && id in checkouts && checkouts[id].key == takers[t].key)
    && (forall id | id in homes && homes[id].Taken? ::
          homes[id].taker in takers && takers[homes[id].taker].result == Some(Some(id)))
  }

  ghost predicate Inv(s: Intake) {
    && ChainOk(s.links, s.done, s.generation, s.step)
    && HeldOk(s.held, s.checkouts, s.links, s.done, s.generation)
    && HomesOk(s.homes, s.checkouts, s.discards, s.held, s.step)
    && TakersOk(s.takers, s.homes, s.checkouts, s.step)
  }

  lemma AdvanceKeepsChain(links: seq<Link>, done: nat, phase: Phase, generation: nat, n: nat)
    requires ChainOk(links, done, generation, n) && done < |links| && phase != Queued
    requires phase.Preparing? || phase.GivingUp? ==> links[done].kind.Prepare?
    ensures ChainOk(links[done := links[done].(phase := phase)], if phase == Done then done + 1 else done,
                    generation, n + 1)
  {}

  lemma ChainGrows(links: seq<Link>, done: nat, generation: nat, n: nat)
    requires ChainOk(links, done, generation, n)
    ensures ChainOk(links, done, generation, n + 1) && ChainOk(links, done, generation + 1, n + 1)
  {}

  // Giving up moves exactly the held checkout, to where it belongs.
  lemma GiveUpKeepsHomes(homes: map<nat, Home>, checkouts: map<nat, Checkout>, discards: map<nat, nat>,
                         held: Option<nat>, n: nat)
    requires HomesOk(homes, checkouts, discards, held, n)
    ensures HomesOk(GivenHomes(homes, checkouts, held), checkouts, GivenDiscards(discards, checkouts, held), None, n)
  {}

  lemma GiveUpKeepsTakers(takers: map<nat, Taker>, homes: map<nat, Home>, checkouts: map<nat, Checkout>,
                          discards: map<nat, nat>, held: Option<nat>, n: nat)
    requires HomesOk(homes, checkouts, discards, held, n) && TakersOk(takers, homes, checkouts, n)
    ensures TakersOk(takers, GivenHomes(homes, checkouts, held), checkouts, n)
  {}

  lemma HomesGrow(s: Intake)
    requires HomesOk(s.homes, s.checkouts, s.discards, s.held, s.step)
    requires TakersOk(s.takers, s.homes, s.checkouts, s.step)
    ensures HomesOk(s.homes, s.checkouts, s.discards, s.held, s.step + 1)
    ensures TakersOk(s.takers, s.homes, s.checkouts, s.step + 1)
  {}

  lemma HoldKeeps(s: Intake, link: Link, owned: bool)
    requires HomesOk(s.homes, s.checkouts, s.discards, None, s.step) && TakersOk(s.takers, s.homes, s.checkouts, s.step)
    requires link.kind.Prepare?
    ensures var g := Holding(s, link, owned);
      && HomesOk(g.homes, g.checkouts, g.discards, g.held, s.step + 1)
      && TakersOk(g.takers, g.homes, g.checkouts, s.step + 1)
  {}

  lemma TakeKeeps(s: Intake, t: nat)
    requires HomesOk(s.homes, s.checkouts, s.discards, s.held, s.step)
    requires TakersOk(s.takers, s.homes, s.checkouts, s.step)
    requires t in s.takers && s.takers[t].result.None? && HeldKey(s) == Some(s.takers[t].key)
    ensures s.held.Some? &&
      var homes := s.homes[s.held.value := Taken(t)];
      && HomesOk(homes, s.checkouts, s.discards, None, s.step)
      && TakersOk(s.takers[t := s.takers[t].(result := Some(s.held))], homes, s.checkouts, s.step)
  {}

  lemma MissKeeps(takers: map<nat, Taker>, homes: map<nat, Home>, checkouts: map<nat, Checkout>, n: nat,
                  t: nat, taker: Taker)
    requires TakersOk(takers, homes, checkouts, n) && t < n + 1 && (t in takers ==> takers[t].result.None?)
    requires taker.result == None || taker.result == Some(None)
    ensures TakersOk(takers[t := taker], homes, checkouts, n + 1)
  {}

  lemma GiveUpKeeps(s: Intake)
    requires HomesOk(s.homes, s.checkouts, s.discards, s.held, s.step)
    requires TakersOk(s.takers, s.homes, s.checkouts, s.step)
    ensures var g := GivenUp(s);
      HomesOk(g.homes, g.checkouts, g.discards, None, s.step) && TakersOk(g.takers, g.homes, g.checkouts, s.step)
  {
    hide HomesOk, TakersOk, GivenHomes, GivenDiscards;
    GiveUpKeepsHomes(s.homes, s.checkouts, s.discards, s.held, s.step);
    GiveUpKeepsTakers(s.takers, s.homes, s.checkouts, s.discards, s.held, s.step);
  }

  lemma AppendKeepsInv(s: Intake, kind: Kind)
    requires Inv(s)
    ensures Inv(Append(s, kind).(step := s.step + 1))
  {}

  lemma RunKeepsInv(s: Intake)
    requires Inv(s)
    ensures Inv(Step(s, Run))
  {
    hide HomesOk, TakersOk, ChainOk, GivenHomes, GivenDiscards;
    HomesGrow(s);
    ChainGrows(s.links, s.done, s.generation, s.step);
    if Running(s, Queued) {
      GiveUpKeeps(s);
      HomesGrow(GivenUp(s));
      AdvanceKeepsChain(s.links, s.done, Clearing, s.generation, s.step);
    }
  }

  // While a link is at work, nothing is held.
  lemma NothingHeldAtWork(s: Intake)
    requires HeldOk(s.held, s.checkouts, s.links, s.done, s.generation)
    requires s.done < |s.links| && s.links[s.done].phase != Queued
    ensures s.held == None
  {}

  lemma AdvanceKeepsInv(s: Intake, phase: Phase)
    requires Inv(s) && s.held == None && s.done < |s.links| && phase != Queued
    requires phase.Preparing? || phase.GivingUp? ==> s.links[s.done].kind.Prepare?
    ensures Inv(Advanced(s, phase).(step := s.step + 1))
  {}

  lemma IdleKeepsInv(s: Intake)
    requires Inv(s)
    ensures Inv(s.(step := s.step + 1))
  {}

  lemma CleanedKeepsInv(s: Intake)
    requires Inv(s)
    ensures Inv(Step(s, Cleaned))
  {
    hide Inv;
    IdleKeepsInv(s);
    if Running(s, Clearing) || Running(s, GivingUp) {
      InvHeld(s);
      NothingHeldAtWork(s);
      AdvanceKeepsInv(s, Done);
      if s.links[s.done].kind.Prepare? { AdvanceKeepsInv(s, Preparing); }
    }
  }

  lemma InvHeld(s: Intake)
    requires Inv(s)
    ensures HeldOk(s.held, s.checkouts, s.links, s.done, s.generation)
  {}

  lemma NextIsQueued(links: seq<Link>, done: nat, generation: nat, n: nat)
    requires ChainOk(links, done, generation, n)
    ensures done + 1 < |links| ==> links[done + 1].phase == Queued
  {}

  lemma PreparedKeepsInv(s: Intake, owned: Option<bool>)
    requires Inv(s)
    ensures Inv(Step(s, Prepared(owned)))
  {
    hide HomesOk, TakersOk, ChainOk, GivenHomes, GivenDiscards;
    IdleKeepsInv(s);
    if Running(s, Preparing) && s.links[s.done].kind.Prepare? {
      NothingHeldAtWork(s);
      NextIsQueued(s.links, s.done, s.generation, s.step);
      var link := s.links[s.done];
      AdvanceKeepsChain(s.links, s.done, Done, s.generation, s.step);
      AdvanceKeepsChain(s.links, s.done, GivingUp, s.generation, s.step);
      if owned.Some? {
        HoldKeeps(s, link, owned.value);
        var g := Holding(s, link, owned.value).(step := s.step + 1);
        GiveUpKeeps(g);
      } else {
        GiveUpKeeps(s.(step := s.step + 1));
      }
    }
  }

  lemma ResumeKeepsInv(s: Intake, t: nat)
    requires Inv(s)
    ensures Inv(Step(s, Resume(t)))
  {
    hide HomesOk, TakersOk, ChainOk;
    IdleKeepsInv(s);
    if t in s.takers && s.takers[t].result.None? && s.takers[t].waitsFor <= s.done {
      if HeldKey(s) == Some(s.takers[t].key) {
        TakeKeeps(s, t);
        var g := Resumed(s, t);
        HomesGrow(g);
        ChainGrows(s.links, s.done, s.generation, s.step);
      } else {
        AppendKeepsInv(s, Clean);
        TakerIsOld(s, t);
        MissKeeps(s.takers, s.homes, s.checkouts, s.step, t, s.takers[t].(result := Some(None)));
      }
    }
  }

  lemma TakerIsOld(s: Intake, t: nat)
    requires TakersOk(s.takers, s.homes, s.checkouts, s.step) && t in s.takers
    ensures t < s.step
  {}

  lemma TakeKeepsInv(s: Intake, key: nat)
    requires Inv(s)
    ensures Inv(Step(s, Take(key)))
  {}

  // Over every run: one owner for each checkout, whatever the order in which schedule, cancel and take
  // meet the chain.
  lemma {:induction false} EveryCheckoutHasOneOwner(events: seq<Event>)
    ensures Inv(RunAll(events)) && RunAll(events).step == |events|
  {
    if events == [] {
      IdleIsOk();
    } else {
      var s, e := RunAll(events[..|events| - 1]), events[|events| - 1];
      EveryCheckoutHasOneOwner(events[..|events| - 1]);
      hide Inv, Running, AfterCleanup, AfterPreparation, Resumed, GivenUp, Advanced;
      match e
      case Schedule(key) => AppendKeepsInv(s, Prepare(key));
      case Cancel => AppendKeepsInv(s, Clean);
      case Take(key) => TakeKeepsInv(s, key);
      case Run => RunKeepsInv(s);
      case Cleaned => CleanedKeepsInv(s);
      case Prepared(owned) => PreparedKeepsInv(s, owned);
      case Resume(t) => ResumeKeepsInv(s, t);
    }
  }

  lemma IdleIsOk()
    ensures Inv(IDLE)
  {}

  // ---- What the panel can rely on ----

  // A checkout that was taken was scheduled for the key it was taken with, its discard never began, and
  // no other taker got it. One that was given up was discarded exactly once if it was owned.
  lemma TakenOnceOrGivenUpOnce(events: seq<Event>, id: nat)
    requires id in RunAll(events).checkouts
    ensures var s := RunAll(events);
      && id in s.homes
      && (s.homes[id].Taken? ==>
            && s.homes[id].taker in s.takers && s.checkouts[id].key == s.takers[s.homes[id].taker].key
            && Count(s.discards, id) == 0
            && forall t | t in s.takers && s.takers[t].result == Some(Some(id)) :: t == s.homes[id].taker)
      && (s.homes[id] == Held <==> s.held == Some(id))
      && (s.homes[id] == Discarded ==> s.checkouts[id].owned && Count(s.discards, id) == 1)
      && (s.homes[id] == Dropped ==> !s.checkouts[id].owned && Count(s.discards, id) == 0)
  {
    EveryCheckoutHasOneOwner(events);
    hide RunAll, ChainOk, HeldOk;
  }

  // Once given up or taken, a checkout stays where it is.
  lemma HomesAreFinal(s: Intake, e: Event, id: nat)
    requires Inv(s) && id in s.homes && s.homes[id] != Held
    ensures id in Step(s, e).homes && Step(s, e).homes[id] == s.homes[id]
  {
    hide Inv, GivenHomes, GivenDiscards, HeldKey, Advanced, Append;
    HomeIsSettled(s, id);
    OthersStayHome(s, id);
    match e
    case Prepared(owned) =>
      if Running(s, Preparing) && s.links[s.done].kind.Prepare? && owned.Some? {
        OthersStayHome(Holding(s, s.links[s.done], owned.value), id);
      }
    case _ =>
  }

  lemma OthersStayHome(s: Intake, id: nat)
    requires id in s.homes && s.held != Some(id)
    ensures id in GivenUp(s).homes && GivenUp(s).homes[id] == s.homes[id]
    ensures forall phase | s.done < |s.links| :: Advanced(GivenUp(s), phase).homes == GivenUp(s).homes
    ensures forall phase | s.done < |s.links| :: Advanced(s, phase).homes == s.homes
    ensures forall kind :: Append(s, kind).homes == s.homes
  {}

  lemma HomeIsSettled(s: Intake, id: nat)
    requires Inv(s) && id in s.homes && s.homes[id] != Held
    ensures s.held != Some(id) && id < s.step
  {}

  // Something was scheduled, cancelled, or a take went on: what was scheduled before is out of date.
  predicate Outdates(s: Intake, e: Event) {
    match e
    case Schedule(_) => true
    case Cancel => true
    case Resume(t) => t in s.takers && s.takers[t].result.None? && s.takers[t].waitsFor <= s.done
    case _ => false
  }

  lemma OutdatingCounts(s: Intake, e: Event)
    ensures Step(s, e).generation == s.generation + (if Outdates(s, e) then 1 else 0)
  {
    hide GivenHomes, GivenDiscards, HeldKey;
  }

  lemma RunsOn(events: seq<Event>, k: nat)
    requires k < |events|
    ensures RunAll(events[..k + 1]) == Step(RunAll(events[..k]), events[k])
  {
    assert events[..k + 1][..k] == events[..k];
  }

  lemma {:induction false} GenerationTells(events: seq<Event>, i: nat)
    requires i <= |events|
    ensures RunAll(events[..i]).generation <= RunAll(events).generation
    ensures RunAll(events[..i]).generation == RunAll(events).generation <==>
            forall j | i <= j < |events| :: !Outdates(RunAll(events[..j]), events[j])
  {
    hide RunAll, Step, Outdates;
    if i == |events| {
      assert events[..i] == events;
    } else {
      var front := events[..|events| - 1];
      GenerationTells(front, i);
      OutdatingCounts(RunAll(front), events[|front|]);
      RunsOn(events, |front|);
      assert events[..|events|] == events && front[..i] == events[..i];
      assert forall j | i <= j < |front| :: front[..j] == events[..j] && front[j] == events[j];
    }
  }

  // A link was added by the event it remembers, and carries the generation that event left.
  ghost predicate LinkIsFrom(events: seq<Event>, link: Link) {
    && link.addedAt < |events| && link.generation == RunAll(events[..link.addedAt + 1]).generation
    && (link.kind.Prepare? ==> events[link.addedAt] == Schedule(link.kind.key))
  }

  lemma AdvancingKeeps(s: Intake, phase: Phase)
    requires s.done < |s.links|
    ensures var g := Advanced(s, phase); |g.links| == |s.links| && g.checkouts == s.checkouts
  {}

  lemma GivingUpKeeps(s: Intake)
    ensures var g := GivenUp(s); g.links == s.links && g.done == s.done && g.checkouts == s.checkouts
  {
    hide GivenHomes, GivenDiscards;
  }

  lemma PreparationKeeps(s: Intake, owned: Option<bool>)
    requires s.done < |s.links| && s.links[s.done].kind.Prepare?
    ensures var g := AfterPreparation(s, owned);
      && |g.links| == |s.links|
      && forall id | id in s.checkouts && id != s.step :: id in g.checkouts && g.checkouts[id] == s.checkouts[id]
  {
    hide Advanced, GivenUp;
    var g := if owned.Some? then Holding(s, s.links[s.done], owned.value) else s;
    GivingUpKeeps(g);
    AdvancingKeeps(g, Done);
    AdvancingKeeps(GivenUp(g), GivingUp);
  }

  // The work of the chain adds no link and changes no checkout that is there.
  lemma WorkKeeps(s: Intake, e: Event)
    requires e.Run? || e.Cleaned? || e.Prepared? || e.Take?
    ensures var g := Step(s, e);
      && |g.links| == |s.links|
      && forall id | id in s.checkouts && id != s.step :: id in g.checkouts && g.checkouts[id] == s.checkouts[id]
  {
    hide Advanced, GivenUp, AfterPreparation;
    if s.done < |s.links| {
      GivingUpKeeps(s);
      match e
      case Run => AdvancingKeeps(GivenUp(s), Clearing);
      case Cleaned => AdvancingKeeps(s, Preparing); AdvancingKeeps(s, Done);
      case Prepared(owned) => if s.links[s.done].kind.Prepare? { PreparationKeeps(s, owned); }
      case Take(_) =>
    }
  }

  lemma NewLinkIsNow(s: Intake, e: Event, i: nat)
    requires |s.links| <= i < |Step(s, e).links|
    ensures var link := Step(s, e).links[i];
      && link.addedAt == s.step && link.generation == Step(s, e).generation
      && (link.kind.Prepare? ==> e == Schedule(link.kind.key))
  {
    hide AfterCleanup, AfterPreparation, Advanced, GivenUp, HeldKey;
    if e.Run? || e.Cleaned? || e.Prepared? || e.Take? { WorkKeeps(s, e); }
  }

  lemma {:induction false} LinksAreFrom(events: seq<Event>, i: nat)
    requires i < |RunAll(events).links|
    ensures LinkIsFrom(events, RunAll(events).links[i])
  {
    hide Step;
    var front, last := events[..|events| - 1], events[|events| - 1];
    LinksStay(RunAll(front), last);
    EveryCheckoutHasOneOwner(front);
    if i < |RunAll(front).links| {
      LinksAreFrom(front, i);
      var at := RunAll(front).links[i].addedAt;
      assert front[..at + 1] == events[..at + 1];
    } else {
      NewLinkIsNow(RunAll(front), last, i);
      assert events[..|events|] == events;
    }
  }

  lemma LinkIsCurrent(events: seq<Event>, i: nat)
    requires i < |RunAll(events).links|
    ensures var link := RunAll(events).links[i];
      && link.addedAt < |events|
      && (link.generation == RunAll(events).generation <==>
            forall j | link.addedAt < j < |events| :: !Outdates(RunAll(events[..j]), events[j]))
  {
    hide RunAll, Outdates;
    LinksAreFrom(events, i);
    GenerationTells(events, RunAll(events).links[i].addedAt + 1);
  }

  ghost predicate Undisturbed(events: seq<Event>, from: nat, to: nat)
    requires to <= |events|
  {
    forall j | from < j < to :: !Outdates(RunAll(events[..j]), events[j])
  }

  lemma CurrentSoFar(events: seq<Event>, k: nat, i: nat)
    requires k <= |events| && i < |RunAll(events[..k]).links|
    ensures var link := RunAll(events[..k]).links[i];
      link.addedAt < k && LinkIsFrom(events[..k], link)
      && (link.generation == RunAll(events[..k]).generation <==> Undisturbed(events, link.addedAt, k))
  {
    hide RunAll, Outdates;
    LinksAreFrom(events[..k], i);
    LinkIsCurrent(events[..k], i);
    assert forall j | 0 <= j < k :: events[..k][..j] == events[..j] && events[..k][j] == events[j];
  }

  lemma CleanupGoesOn(s: Intake)
    requires Running(s, Clearing)
    ensures var g := Step(s, Cleaned);
      && s.done < |g.links|
      && if s.links[s.done].kind.Prepare? && s.links[s.done].generation == s.generation
         then g.links[s.done].phase == Preparing && g.done == s.done
         else g.links[s.done].phase == Done && g.done == s.done + 1 && g.held == s.held && g.checkouts == s.checkouts
  {}

  // Git is asked for the checkout of a schedule if and only if nothing was scheduled or cancelled, and no
  // take went on, between the schedule and the end of the cleanup before it; otherwise its link just ends.
  lemma OnlyTheNewestPrepares(events: seq<Event>, k: nat)
    requires k < |events| && events[k] == Cleaned
    requires var s := RunAll(events[..k]); Running(s, Clearing) && s.links[s.done].kind.Prepare?
    ensures var s, g := RunAll(events[..k]), RunAll(events[..k + 1]);
            var link := s.links[s.done];
      && link.addedAt < k && events[link.addedAt] == Schedule(link.kind.key) && s.done < |g.links|
      && if Undisturbed(events, link.addedAt, k)
         then g.links[s.done].phase == Preparing && g.done == s.done
         else g.links[s.done].phase == Done && g.done == s.done + 1 && g.held == s.held && g.checkouts == s.checkouts
  {
    hide RunAll, Step, Undisturbed;
    RunsOn(events, k);
    CurrentSoFar(events, k, RunAll(events[..k]).done);
    CleanupGoesOn(RunAll(events[..k]));
  }

  lemma PreparationGoesOn(s: Intake, owned: bool)
    requires Inv(s) && Running(s, Preparing) && s.links[s.done].kind.Prepare?
    ensures var g := Step(s, Prepared(Some(owned)));
      && s.step in g.checkouts && s.step in g.homes
      && if s.links[s.done].generation == s.generation
         then g.held == Some(s.step) && g.homes[s.step] == Held
         else g.held == None && g.homes[s.step] == if owned then Discarded else Dropped
  {
    hide Inv;
  }

  // The checkout is kept for a take if and only if nothing of the kind happened by the time it is ready;
  // otherwise it is given up in the same turn.
  lemma OnlyTheNewestIsHeld(events: seq<Event>, k: nat)
    requires k < |events| && events[k].Prepared? && events[k].owned.Some?
    requires var s := RunAll(events[..k]); Running(s, Preparing) && s.links[s.done].kind.Prepare?
    ensures var s, g := RunAll(events[..k]), RunAll(events[..k + 1]);
            var link := s.links[s.done];
      && link.addedAt < k && events[link.addedAt] == Schedule(link.kind.key) && k in g.checkouts && k in g.homes
      && g.checkouts[k] == Checkout(link.kind.key, events[k].owned.value, link.generation)
      && if Undisturbed(events, link.addedAt, k) then g.held == Some(k) && g.homes[k] == Held
         else g.held == None && g.homes[k] == if events[k].owned.value then Discarded else Dropped
  {
    hide RunAll, Step, Undisturbed, Inv;
    RunsOn(events, k);
    EveryCheckoutHasOneOwner(events[..k]);
    CurrentSoFar(events, k, RunAll(events[..k]).done);
    PreparationGoesOn(RunAll(events[..k]), events[k].owned.value);
    CheckoutIsNoted(RunAll(events[..k]), events[k].owned.value);
  }

  lemma CheckoutIsNoted(s: Intake, owned: bool)
    requires Running(s, Preparing) && s.links[s.done].kind.Prepare?
    ensures var link := s.links[s.done];
      Step(s, Prepared(Some(owned))).checkouts == s.checkouts[s.step := Checkout(link.kind.key, owned, link.generation)]
  {
    hide GivenHomes, GivenDiscards;
  }

  lemma HeldIsCurrent(s: Intake, e: Event)
    ensures var g := Step(s, e);
      g.held.Some? && g.held != s.held ==>
        g.held.value in g.checkouts && g.checkouts[g.held.value].generation == s.generation
  {
    hide GivenHomes, GivenDiscards, HeldKey;
  }

  lemma CheckoutsStay(s: Intake, e: Event, id: nat)
    requires id in s.checkouts && id < s.step
    ensures id in Step(s, e).checkouts && Step(s, e).checkouts[id] == s.checkouts[id]
  {
    hide AfterCleanup, AfterPreparation, Advanced, GivenUp, HeldKey;
    if e.Run? || e.Cleaned? || e.Prepared? || e.Take? { WorkKeeps(s, e); }
  }

  // Once nothing is held, in particular right after a take, nothing that was scheduled before is ever
  // held again.
  lemma {:induction false} NothingOlderIsHeldAgain(events: seq<Event>, n: nat)
    requires n <= |events| && RunAll(events[..n]).held == None
    ensures RunAll(events[..n]).generation <= RunAll(events).generation
    ensures var s := RunAll(events);
      s.held.Some? ==> s.held.value in s.checkouts
                       && RunAll(events[..n]).generation <= s.checkouts[s.held.value].generation
  {
    hide Step;
    if n == |events| {
      assert events[..n] == events;
    } else {
      var front := events[..|events| - 1];
      assert front[..n] == events[..n];
      NothingOlderIsHeldAgain(front, n);
      EveryCheckoutHasOneOwner(front);
      OutdatingCounts(RunAll(front), events[|events| - 1]);
      HeldIsCurrent(RunAll(front), events[|events| - 1]);
      if RunAll(front).held.Some? {
        CheckoutsAreOld(RunAll(front));
        CheckoutsStay(RunAll(front), events[|events| - 1], RunAll(front).held.value);
      }
    }
  }

  lemma CheckoutsAreOld(s: Intake)
    requires Inv(s)
    ensures forall id | id in s.checkouts :: id < s.step
  {
    hide ChainOk, HeldOk, TakersOk;
  }

  // A take that succeeds leaves nothing held, and outdates everything scheduled so far.
  lemma TakeRetiresEarlierSchedules(s: Intake, t: nat)
    requires Inv(s) && t in s.takers && s.takers[t].result.None? && s.takers[t].waitsFor <= s.done
    requires HeldKey(s) == Some(s.takers[t].key)
    ensures var g := Step(s, Resume(t));
      g.held == None && forall i | 0 <= i < |g.links| :: g.links[i].generation < g.generation
  {
    hide HeldOk, HomesOk, TakersOk;
  }

  // When the chain is idle, what is held is what was asked for last.
  lemma IdleHoldsTheLatest(events: seq<Event>)
    ensures var s := RunAll(events);
      s.held.Some? && s.done == |s.links| ==>
        s.held.value in s.checkouts && s.checkouts[s.held.value].generation == s.generation
  {
    EveryCheckoutHasOneOwner(events);
    hide RunAll, ChainOk, TakersOk, HomesOk;
  }

  // Once a cleaning link has run, whatever is held was scheduled after it.
  lemma CleaningDrains(events: seq<Event>, i: nat)
    requires var s := RunAll(events); i < s.done && i < |s.links| && s.links[i].kind == Clean
    ensures var s := RunAll(events);
      s.held.Some? ==> s.held.value in s.checkouts && s.links[i].generation < s.checkouts[s.held.value].generation
  {
    EveryCheckoutHasOneOwner(events);
    var s := RunAll(events);
    hide RunAll, TakersOk, HomesOk;
    if s.held.Some? {
      assert s.links[s.done - 1].kind.Prepare?;
    }
  }

  ghost predicate Extends(links: seq<Link>, more: seq<Link>) {
    && |links| <= |more|
    && forall i | 0 <= i < |links| ::
         && more[i].kind == links[i].kind && more[i].generation == links[i].generation
         && more[i].addedAt == links[i].addedAt
  }

  lemma AdvancedExtends(s: Intake, phase: Phase)
    requires s.done < |s.links|
    ensures Extends(s.links, Advanced(s, phase).links)
  {}

  lemma AppendExtends(s: Intake, kind: Kind)
    ensures Extends(s.links, s.links) && Extends(s.links, Append(s, kind).links)
  {}

  // A link keeps its place, kind and generation.
  lemma LinksStay(s: Intake, e: Event)
    ensures Extends(s.links, Step(s, e).links)
  {
    hide Extends, Advanced, Append, GivenHomes, GivenDiscards;
    AppendExtends(s, Clean);
    match e
    case Schedule(key) => AppendExtends(s, Prepare(key));
    case Cancel =>
    case Take(key) =>
    case Run => if Running(s, Queued) { AdvancedExtends(GivenUp(s), Clearing); }
    case Cleaned =>
      if s.done < |s.links| { AdvancedExtends(s, Done); AdvancedExtends(s, Preparing); }
    case Prepared(owned) =>
      if Running(s, Preparing) && s.links[s.done].kind.Prepare? {
        var g := if owned.Some? then Holding(s, s.links[s.done], owned.value) else s;
        AdvancedExtends(g, Done);
        AdvancedExtends(GivenUp(g), GivingUp);
      }
    case Resume(t) =>
  }

  lemma {:induction false} LinksRemain(events: seq<Event>, q: nat)
    requires q <= |events|
    ensures Extends(RunAll(events[..q]).links, RunAll(events).links)
  {
    hide Step;
    if q == |events| {
      assert events[..q] == events;
    } else {
      var front := events[..|events| - 1];
      assert front[..q] == events[..q];
      LinksRemain(front, q);
      LinksStay(RunAll(front), events[|events| - 1]);
    }
  }

  // Once the chain has passed the link a cancel added, nothing scheduled before the cancel is held.
  lemma CancelDrains(events: seq<Event>, q: nat)
    requires q < |events| && events[q] == Cancel && |RunAll(events[..q]).links| < RunAll(events).done
    ensures var s := RunAll(events);
      s.held.Some? ==> s.held.value in s.checkouts
                       && RunAll(events[..q]).generation < s.checkouts[s.held.value].generation
  {
    var i := |RunAll(events[..q]).links|;
    assert events[..q + 1][..q] == events[..q];
    CancelAddsTheNewestLink(RunAll(events[..q]));
    LinksRemain(events, q + 1);
    hide Step, RunAll;
    EveryCheckoutHasOneOwner(events);
    DoneAreThere(RunAll(events));
    CleaningDrains(events, i);
  }

  lemma DoneAreThere(s: Intake)
    requires Inv(s)
    ensures s.done <= |s.links|
  {}

  lemma CancelAddsTheNewestLink(s: Intake)
    ensures var g := Step(s, Cancel);
      && g.links == s.links + [Link(Clean, g.generation, s.step, Queued)] && s.generation < g.generation
  {}

  // ---- The preparation itself ----

  class IntakeWorktreePreparation {
    var generation: nat
    var held: Option<nat>
    var links: seq<Link>
    var done: nat
    var takers: map<nat, Taker>
    var checkouts: map<nat, Checkout>
    var nextName: nat
    ghost var homes: map<nat, Home>
    ghost var discards: map<nat, nat>

    ghost function View(): Intake
      reads this
    {
      Intake(generation, held, links, done, takers, checkouts, homes, discards, nextName)
    }

    constructor ()
      ensures View() == IDLE
    {
      generation, held, links, done, takers, checkouts, nextName := 0, None, [], 0, map[], map[], 0;
      homes, discards := map[], map[];
    }

    method AddLink(kind: Kind)
      modifies this`generation, this`links
      ensures View() == Append(old(View()), kind)
    {
      generation := generation + 1;
      links := links + [Link(kind, generation, nextName, Queued)];
    }

    method ScheduleFor(key: nat)
      modifies this
      ensures View() == Step(old(View()), Schedule(key))
    {
      AddLink(Prepare(key));
      nextName := nextName + 1;
    }

    method CancelAll()
      modifies this
      ensures View() == Step(old(View()), Cancel)
    {
      AddLink(Clean);
      nextName := nextName + 1;
    }

    // Begin cleanup; `discards` says whether Git is asked to discard what was held.
    method BeginCleanup() returns (discarding: bool)
      modifies this`held, this`homes, this`discards
      ensures View() == GivenUp(old(View()))
      ensures discarding <==> old(held).Some? && old(held).value in checkouts && checkouts[old(held).value].owned
    {
      var was := held;
      homes, discards := GivenHomes(homes, checkouts, held), GivenDiscards(discards, checkouts, held);
      held := None;
      discarding := was.Some? && was.value in checkouts && checkouts[was.value].owned;
    }

    method MoveOn(phase: Phase)
      requires done < |links|
      modifies this`links, this`done
      ensures View() == Advanced(old(View()), phase)
    {
      links := links[done := links[done].(phase := phase)];
      if phase == Done {
        done := done + 1;
      }
    }

    method RunLink()
      requires Running(View(), Queued)
      modifies this
      ensures View() == Step(old(View()), Run)
    {
      hide GivenUp;
      GivenUpKeepsChain(View());
      var _ := BeginCleanup();
      MoveOn(Clearing);
      nextName := nextName + 1;
    }

    method CleanupEnded()
      requires Running(View(), Clearing) || Running(View(), GivingUp)
      modifies this
      ensures View() == Step(old(View()), Cleaned)
    {
      if links[done].phase.Clearing? && links[done].kind.Prepare? && links[done].generation == generation {
        MoveOn(Preparing);
      } else {
        MoveOn(Done);
      }
      nextName := nextName + 1;
    }

    method PreparationEnded(owned: Option<bool>)
      requires Running(View(), Preparing) && links[done].kind.Prepare?
      modifies this
      ensures View() == Step(old(View()), Prepared(owned))
    {
      hide GivenUp;
      var link := links[done];
      if owned.Some? {
        held := Some(nextName);
        checkouts := checkouts[nextName := Checkout(link.kind.key, owned.value, link.generation)];
        homes := homes[nextName := Held];
      }
      GivenUpKeepsChain(View());
      if link.generation == generation {
        MoveOn(Done);
      } else {
        var _ := BeginCleanup();
        MoveOn(GivingUp);
      }
      nextName := nextName + 1;
    }

    method TakeFor(key: nat) returns (taker: nat)
      modifies this
      ensures View() == Step(old(View()), Take(key)) && taker == old(nextName)
    {
      taker := nextName;
      takers := takers[taker := Taker(key, |links|, None)];
      nextName := nextName + 1;
    }

    // What take does once the chain it waited for is done.
    method ResumeTake(t: nat) returns (result: Option<nat>)
      requires t in takers && takers[t].result.None? && takers[t].waitsFor <= done
      modifies this
      ensures View() == Step(old(View()), Resume(t)) && takers[t].result == Some(result)
      ensures if old(held.Some? && held.value in checkouts && checkouts[held.value].key == takers[t].key)
              then result == old(held) && held == None && homes == old(homes)[old(held).value := Taken(t)]
                   && discards == old(discards) && links == old(links)
              else result == None && held == old(held) && homes == old(homes) && discards == old(discards)
                   && links == old(links) + [Link(Clean, old(generation) + 1, old(nextName), Queued)]
    {
      if held.Some? && held.value in checkouts && checkouts[held.value].key == takers[t].key {
        result := held;
        homes := homes[held.value := Taken(t)];
        held := None;
        generation := generation + 1;
      } else {
        AddLink(Clean);
        result := None;
      }
      takers := takers[t := takers[t].(result := Some(result))];
      nextName := nextName + 1;
    }
  }

  lemma GivenUpKeepsChain(s: Intake)
    ensures var g := GivenUp(s);
      g.links == s.links && g.done == s.done && g.step == s.step && g.generation == s.generation
  {}
}
