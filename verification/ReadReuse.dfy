// What a request finds: an answer its client was given a moment ago, the read of the same thing that is under
// way, or neither.
module ReadReuse {
  import opened ReadHubs
  import opened Clients
  import opened ReadWaits
  import opened Wrappers

  // Client `c` forgets its answers: it begins or ends a write, invalidates, is disposed of, or moves.
  predicate Forgets(h: Hub, e: Event, c: nat) {
    || ((e.Begin? || e.Invalidate? || e.Dispose?) && e.client == c)
    || (e.Rebind? && e.client == c && c in h.clients && e.repository != h.clients[c].repository)
    || (e.Settle? && e.operation in h.operations && h.operations[e.operation].client == c)
  }

  // Since event `i`, client `c` has forgotten nothing and nothing has fenced the checkout.
  ghost predicate Undisturbed(events: seq<Event>, i: nat, c: nat, repository: nat) {
    forall m | i < m < |events| ::
      !Fences(Run(events[..m]), events[m], repository) && !Forgets(Run(events[..m]), events[m], c)
  }

  lemma FencesLeaveOthers(h: Hub, e: Event, c: nat)
    requires Fencing(e) && c in h.clients && !Forgets(h, e, c)
    ensures c in Step(h, e).clients && Step(h, e).clients[c] == h.clients[c]
  {
    hide Effect, PendingOf, DepartAll, SettleAll;
    FencingEffect(h, e);
  }

  lemma ReadsLeaveEpochs(h: Hub, e: Event, c: nat)
    requires !Fencing(e) && c in h.clients
    ensures c in Step(h, e).clients && Step(h, e).clients[c].readEpoch == h.clients[c].readEpoch
    ensures Step(h, e).clients[c].repository == h.clients[c].repository
  {
    hide Mutating, DepartAll, SettleAll, StillShared, StillRead, Unshare, Store, Lookup, MayCacheFor, JobFor, Share,
         KeyOf, WithoutStale;
  }

  lemma ClientStays(h: Hub, e: Event, c: nat)
    requires c in h.clients && !Forgets(h, e, c)
    ensures c in Step(h, e).clients && Step(h, e).clients[c].readEpoch == h.clients[c].readEpoch
    ensures Step(h, e).clients[c].repository == h.clients[c].repository
  {
    hide Step, Forgets;
    if Fencing(e) { FencesLeaveOthers(h, e, c); } else { ReadsLeaveEpochs(h, e, c); }
  }

  lemma EpochStays(h: Hub, e: Event, repository: nat)
    requires Ready(h) && !Fences(h, e, repository)
    ensures At(Step(h, e).epochs, repository) == At(h.epochs, repository)
  {
    hide Effect, Fences;
    FencesAreRecorded(h, e, repository);
  }

  // ---- An answer is used again ----

  // Subscriber `s` still waits for what it asked for: `request` of the checkout its client is bound to.
  ghost predicate AsksFor(h: Hub, s: nat, c: nat, repository: nat, request: nat) {
    && Bound(h.clients, c, repository) && s in h.subscribers && h.subscribers[s].owner == c
    && h.subscribers[s].readEpoch == h.clients[c].readEpoch
    && h.subscribers[s].mutationEpoch == At(h.epochs, repository)
    && h.subscribers[s].job in h.jobs && h.jobs[h.subscribers[s].job].repository == repository
    && h.jobs[h.subscribers[s].job].key == Some(ShareKey(repository, At(h.epochs, repository), request))
  }

  lemma Subscribed(h: Hub, e: Event)
    requires Inv(h, h.step) && e.Request? && e.cacheable && h.step in Step(h, e).subscribers
    ensures e.client in h.clients
    ensures AsksFor(Step(h, e), h.step, e.client, h.clients[e.client].repository, e.request)
  {
    hide Mutating, Lookup, WithoutStale, OwnersOk, EpochsOk, OperationsOk, ResultsOk;
    AnswerShape(h, e.client, e.request, e.cacheable, e.aborted, e.now);
    if e.client in h.clients { SharedKeys(h); }
  }

  lemma SharedKeys(h: Hub)
    requires Inv(h, h.step)
    ensures forall k | k in h.shared ::
      && h.shared[k] in h.jobs && Live(h.jobs[h.shared[k]]) && h.jobs[h.shared[k]].key == Some(k)
      && h.jobs[h.shared[k]].repository == k.repository
  {
    forall k | k in h.shared ensures h.shared[k] in h.jobs && JobOk(h.jobs[h.shared[k]]) {}
  }

  lemma StillAsks(h: Hub, e: Event, s: nat, c: nat, repository: nat, request: nat)
    requires Inv(h, h.step) && AsksFor(h, s, c, repository, request)
    requires !Fences(h, e, repository) && !Forgets(h, e, c)
    ensures AsksFor(Step(h, e), s, c, repository, request)
  {
    hide Inv, Effect, Fences, Forgets;
    InvIsReady(h);
    ClientStays(h, e, c);
    EpochStays(h, e, repository);
    StepKeepsSubscriber(h, e, s);
    StepKeepsJobs(h, e, h.subscribers[s].job);
  }

  lemma {:induction false} SubscriberIsCurrent(events: seq<Event>, s: nat)
    requires s < |events| && events[s].Request? && events[s].cacheable && s in Run(events[..s + 1]).subscribers
    requires events[s].client in Run(events[..s]).clients
    requires Undisturbed(events, s, events[s].client, Run(events[..s]).clients[events[s].client].repository)
    ensures AsksFor(Run(events), s, events[s].client, Run(events[..s]).clients[events[s].client].repository,
                    events[s].request)
  {
    hide Inv, Effect, Fences, Forgets, AsksFor, Step;
    var front, last := events[..|events| - 1], events[|events| - 1];
    assert front[..s] == events[..s] && events[..|front|] == front && events[..|front| + 1] == events;
    RunTurns(events, |front|);
    SharedReadInvariant(front);
    if s + 1 == |events| {
      Subscribed(Run(front), last);
    } else {
      assert front[..s + 1] == events[..s + 1] && front[s] == events[s];
      assert forall m | 0 <= m < |front| :: front[..m] == events[..m] && front[m] == events[m];
      SubscriberIsCurrent(front, s);
      StillAsks(Run(front), last, s, events[s].client,
                Run(events[..s]).clients[events[s].client].repository, events[s].request);
    }
  }

  lemma DeliveredEntry(h: Hub, s: nat, c: nat, repository: nat, request: nat, value: nat, now: int)
    requires Inv(h, h.step) && AsksFor(h, s, c, repository, request) && h.subscribers[s].settled == 0
    requires h.jobs[h.subscribers[s].job].started
    ensures var j := h.subscribers[s].job; var g := Step(h, Complete(j, Some(value), now));
      && Bound(g.clients, c, repository) && At(g.epochs, repository) == At(h.epochs, repository)
      && g.clients[c].readEpoch == h.clients[c].readEpoch
      && g.clients[c].results == Store(h.clients[c].results, EntryFor(h, j, h.clients[c].readEpoch, value, now), now)
  {
    hide Store, Lookup, Mutating, OwnersOk, EpochsOk, OperationsOk, ResultsOk, SharedOk, BeginMutation, SettleMutation,
         UseRepository, CancelOwn, InvalidateReads, RequestRead, Leave;
    var j := h.subscribers[s].job;
    assert SubscriberOk(s, h.subscribers[s], h.jobs, h.clients.Keys);
    assert JobOk(h.jobs[j]);
    assert s in h.jobs[j].subscribers && MayCacheFor(h, s, j, c);
  }

  // Over every run: when a cacheable read returns to a subscriber that is still waiting, and neither its
  // checkout was fenced nor its client made to forget since it asked, the client is given that value again, by
  // the same request, for the next 250 ms.
  lemma AnswersAreReused(events: seq<Event>, s: nat, value: nat, now: int, later: int)
    requires s < |events| && events[s].Request? && events[s].cacheable && s in Run(events[..s + 1]).subscribers
    requires events[s].client in Run(events[..s]).clients && later <= now + 250
    requires Undisturbed(events, s, events[s].client, Run(events[..s]).clients[events[s].client].repository)
    requires s in Run(events).subscribers && Run(events).subscribers[s].settled == 0
    requires Run(events).subscribers[s].job in Run(events).jobs
             && Run(events).jobs[Run(events).subscribers[s].job].started
    ensures var j, c := Run(events).subscribers[s].job, events[s].client;
            var g := Run(events + [Complete(j, Some(value), now)]);
      c in g.clients && Answer(g, c, events[s].request, true, false, later) == Hit(value, j, |events|)
  {
    hide Run, Inv, Step, Fences, Forgets, Undisturbed, Answer, AsksFor, Bound;
    var c, repository := events[s].client, Run(events[..s]).clients[events[s].client].repository;
    SubscriberIsCurrent(events, s);
    SharedReadInvariant(events);
    OneMore(events, Complete(Run(events).subscribers[s].job, Some(value), now));
    DeliveredAgain(Run(events), s, c, repository, events[s].request, value, now, later);
  }

  lemma OneMore(events: seq<Event>, e: Event)
    ensures Run(events + [e]) == Step(Run(events), e)
  {
    hide Step;
    assert (events + [e])[..|events|] == events;
  }

  lemma DeliveredAgain(h: Hub, s: nat, c: nat, repository: nat, request: nat, value: nat, now: int, later: int)
    requires Inv(h, h.step) && AsksFor(h, s, c, repository, request)
    requires s in h.subscribers && h.subscribers[s].settled == 0
    requires h.subscribers[s].job in h.jobs && h.jobs[h.subscribers[s].job].started && later <= now + 250
    ensures var j := h.subscribers[s].job; var g := Step(h, Complete(j, Some(value), now));
      c in g.clients && Answer(g, c, request, true, false, later) == Hit(value, j, h.step)
  {
    hide Inv, Step, Store, EntryFor, Answer, Lookup, Unexpired;
    var j := h.subscribers[s].job;
    DeliveredEntry(h, s, c, repository, request, value, now);
    ResultsAreFew(h, c);
    EntryIs(h, j, h.clients[c].readEpoch, value, now);
    var entry := EntryFor(h, j, h.clients[c].readEpoch, value, now);
    NewestAnswerIsKept(h.clients[c].results, entry, now, entry);
    FoundAgain(Step(h, Complete(j, Some(value), now)), c, request, entry, later);
  }

  lemma FoundAgain(h: Hub, c: nat, request: nat, entry: Entry, now: int)
    requires c in h.clients && now <= entry.expiresAt
    requires var repository := h.clients[c].repository;
      entry.key == ShareKey(repository, At(h.epochs, repository), request)
    requires var i := Lookup(h.clients[c].results, h.clients[c].readEpoch, entry.key);
      i >= 0 && h.clients[c].results[i] == entry
    ensures Answer(h, c, request, true, false, now) == Hit(entry.value, entry.requestedAt, entry.completedAt)
  {
    hide Lookup;
  }

  lemma ResultsAreFew(h: Hub, c: nat)
    requires Inv(h, h.step) && c in h.clients
    ensures |h.clients[c].results| <= 32
  {
    assert EntriesOk(h.clients[c].results, h.clients[c].readEpoch, h.epochs, h.fences);
  }

  lemma EntryIs(h: Hub, j: nat, readEpoch: nat, value: nat, now: int)
    requires j in h.jobs && h.jobs[j].key.Some?
    ensures EntryFor(h, j, readEpoch, value, now) ==
            Entry(readEpoch, h.jobs[j].key.value, now + 250, value, j, h.step)
  {}

  // ---- A read under way is joined ----

  // Job `j` reads `request` of a checkout that has not been fenced since the job was made.
  ghost predicate ReadsFor(h: Hub, j: nat, repository: nat, request: nat) {
    && j in h.jobs && h.jobs[j].repository == repository
    && h.jobs[j].key == Some(ShareKey(repository, At(h.epochs, repository), request))
  }

  lemma {:induction false} JobIsCurrent(events: seq<Event>, j: nat)
    requires j < |events| && events[j].Request? && events[j].cacheable && j in Run(events[..j + 1]).jobs
    requires events[j].client in Run(events[..j]).clients
    requires var repository := Run(events[..j]).clients[events[j].client].repository;
      forall m | j < m < |events| :: !Fences(Run(events[..m]), events[m], repository)
    ensures ReadsFor(Run(events), j, Run(events[..j]).clients[events[j].client].repository, events[j].request)
  {
    hide Inv, Effect, Fences, Step, KeyOf;
    var front, last := events[..|events| - 1], events[|events| - 1];
    var repository := Run(events[..j]).clients[events[j].client].repository;
    assert front[..j] == events[..j] && events[..|front|] == front && events[..|front| + 1] == events;
    RunTurns(events, |front|);
    SharedReadInvariant(front);
    InvIsReady(Run(front));
    if j + 1 == |events| {
      NewJob(Run(front), last);
      KeyIs(Run(front), last.client, last.request);
      RequestLeavesEpochs(Run(front), last);
    } else {
      assert front[..j + 1] == events[..j + 1] && front[j] == events[j];
      assert forall m | 0 <= m < |front| :: front[..m] == events[..m] && front[m] == events[m];
      JobIsCurrent(front, j);
      EpochStays(Run(front), last, repository);
      JobKeepsKey(Run(front), last, j);
    }
  }

  lemma KeyIs(h: Hub, c: nat, request: nat)
    requires c in h.clients
    ensures var repository := h.clients[c].repository;
      KeyOf(h, c, request, true) == Some(ShareKey(repository, At(h.epochs, repository), request))
  {}

  lemma RequestLeavesEpochs(h: Hub, e: Event)
    requires e.Request?
    ensures Step(h, e).epochs == h.epochs
  {
    if e.client in h.clients { RequestKeepsFences(h, e.client, e.request, e.cacheable, e.aborted, e.now); }
  }

  lemma JobKeepsKey(h: Hub, e: Event, j: nat)
    requires Ready(h) && j in h.jobs
    ensures j in Step(h, e).jobs && Step(h, e).jobs[j].key == h.jobs[j].key
    ensures Step(h, e).jobs[j].repository == h.jobs[j].repository
  {
    hide Effect;
    StepKeepsJobs(h, e, j);
  }

  // Over every run: while a read is under way that somebody waits for, and its checkout has not been fenced
  // since it was asked for, every further request for the same thing, of any client bound to that checkout,
  // joins it or is given a cached answer: none starts a second read.
  lemma LiveReadsAreJoined(events: seq<Event>, j: nat, c: nat, now: int)
    requires j < |events| && events[j].Request? && events[j].cacheable && j in Run(events[..j + 1]).jobs
    requires events[j].client in Run(events[..j]).clients
    requires var repository := Run(events[..j]).clients[events[j].client].repository;
      && (forall m | j < m < |events| :: !Fences(Run(events[..m]), events[m], repository))
      && Bound(Run(events).clients, c, repository)
    requires j in Run(events).jobs && Live(Run(events).jobs[j])
    ensures var answer := Answer(Run(events), c, events[j].request, true, false, now);
      answer.Hit? || answer == Joined(j)
  {
    hide Run, Inv, Fences, Lookup;
    JobIsCurrent(events, j);
    SharedReadInvariant(events);
    LiveIsShared(Run(events), j);
  }

  lemma LiveIsShared(h: Hub, j: nat)
    requires Inv(h, h.step) && j in h.jobs && Live(h.jobs[j]) && h.jobs[j].key.Some?
    ensures h.jobs[j].key.value in h.shared && h.shared[h.jobs[j].key.value] == j
  {}

  // A request is refused exactly if it was cancelled before it was made. Refused or answered from the cache it
  // changes nothing; otherwise it adds one subscriber, of its own name and client, to the job it waits on.
  lemma RequestsSubscribe(h: Hub, e: Event)
    requires Inv(h, h.step) && e.Request? && e.client in h.clients
    ensures var answer := Answer(h, e.client, e.request, e.cacheable, e.aborted, e.now); var g := Step(h, e);
      && (answer.Refused? <==> e.aborted)
      && (answer.Hit? || answer.Joined? ==> e.cacheable)
      && (if answer.Refused? || answer.Hit? then g == h.(step := h.step + 1)
          else
            && g.subscribers.Keys == h.subscribers.Keys + {h.step}
            && g.subscribers[h.step].owner == e.client && g.subscribers[h.step].job == answer.job
            && g.subscribers[h.step].settled == 0
            && g.jobs.Keys == h.jobs.Keys + {answer.job}
            && (answer.Joined? ==>
                  && answer.job in h.jobs && Live(h.jobs[answer.job])
                  && g.jobs == h.jobs[answer.job := h.jobs[answer.job].(subscribers :=
                       h.jobs[answer.job].subscribers + {h.step})]))
  {
    hide Inv, Step, Joining, WithoutStale, Answer, KeyOf;
    var c := e.client;
    var key, answer := KeyOf(h, c, e.request, e.cacheable), Answer(h, c, e.request, e.cacheable, e.aborted, e.now);
    InvIsReady(h);
    SharedKeys(h);
    AnswerShape(h, c, e.request, e.cacheable, e.aborted, e.now);
    AnswerKinds(h, c, e.request, e.cacheable, e.aborted, e.now);
    RequestSteps(h, e);
    if answer.Joined? || answer.Fresh? { JoiningAdds(DropStale(h, c, key), c, key, answer.job); }
  }

  lemma AnswerKinds(h: Hub, c: nat, request: nat, cacheable: bool, aborted: bool, now: int)
    requires c in h.clients
    ensures var answer := Answer(h, c, request, cacheable, aborted, now);
      && (answer.Refused? <==> aborted) && (answer.Hit? || answer.Joined? ==> cacheable)
  {
    hide Lookup;
  }

  lemma RequestSteps(h: Hub, e: Event)
    requires e.Request? && e.client in h.clients
    ensures var answer := Answer(h, e.client, e.request, e.cacheable, e.aborted, e.now);
            var key := KeyOf(h, e.client, e.request, e.cacheable);
      && (answer.Refused? || answer.Hit? ==> Step(h, e) == h.(step := h.step + 1))
      && (answer.Joined? || answer.Fresh? ==>
            Step(h, e) == Joining(DropStale(h, e.client, key), e.client, key, answer.job).(step := h.step + 1))
  {
    hide Joining, DropStale, Answer, KeyOf;
  }

  lemma JoiningAdds(h: Hub, c: nat, key: Option<ShareKey>, j: nat)
    requires c in h.clients && h.step !in h.subscribers
    ensures var g := Joining(h, c, key, j);
      && g.subscribers.Keys == h.subscribers.Keys + {h.step}
      && g.subscribers[h.step].owner == c && g.subscribers[h.step].job == j && g.subscribers[h.step].settled == 0
      && g.jobs.Keys == h.jobs.Keys + {j}
      && (j in h.jobs ==> g.jobs == h.jobs[j := h.jobs[j].(subscribers := h.jobs[j].subscribers + {h.step})])
  {
    hide Mutating;
  }
}
