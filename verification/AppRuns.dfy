/** What holds over whole runs: who runs where, how long the restart marker lasts, who boot recovers. */
module AppRuns {
  import opened Options
  import opened HostMatching
  import opened DomainTable
  import opened AppLifecycle
  import opened AppStatus

  /** A zone whose domains have just been seeded. */
  ghost predicate Initial(s: State) {
    && s.apps == map[] && s.launches == map[] && s.installs == map[] && !s.exclusive
    && exists primary: Domain, extras ::
         primary.given == Lower(primary.given) && s.domains == Seeded([], primary, extras)
  }

  ghost predicate IsRun(events: seq<Event>, states: seq<State>) {
    && |states| == |events| + 1 && Initial(states[0])
    && forall i :: 0 <= i < |events| ==> Step(states[i], events[i], states[i + 1])
  }

  lemma InitialFits(s: State)
    requires Initial(s)
    ensures Inv(s)
  {
    var primary: Domain, extras :|
      primary.given == Lower(primary.given) && s.domains == Seeded([], primary, extras);
    SeedingMakesOnePrimary(primary, extras);
    PrimaryFound(s.domains, primary.given);
  }

  /** Up to the `i`-th state no promotion that went through met an install half-way. */
  ghost predicate InstallsApart(events: seq<Event>, states: seq<State>, i: nat)
    requires i < |states| == |events| + 1
  {
    forall k :: 0 <= k < i ==> Apart(states[k], events[k])
  }

  lemma {:induction false} InvHoldsThroughout(events: seq<Event>, states: seq<State>, i: nat)
    requires IsRun(events, states) && i < |states| && InstallsApart(events, states, i)
    ensures Inv(states[i])
  {
    if i == 0 {
      InitialFits(states[0]);
    } else {
      var k := i - 1;
      InvHoldsThroughout(events, states, k);
      StepKeepsInv(states[k], events[k], states[k + 1]);
    }
  }

  /** Over every interleaving of installs, launches and their failures, promotions, domain changes,
      archive operations, crashes and boot recoveries, in which no promotion falls between an
      install's environment and its row: what the table calls running has a container that was
      given the current primary domain. */
  lemma RunningAppsServeThePrimary(events: seq<Event>, states: seq<State>, i: nat, a: AppId)
    requires IsRun(events, states) && i < |states| && InstallsApart(events, states, i)
    requires a in states[i].apps && states[i].apps[a].status == Running
    ensures var s := states[i];
            && Primary(s.domains).Some? && PrimaryIs(s.domains, Primary(s.domains).value)
            && s.apps[a].container.Some? && s.apps[a].container.value in s.containers
            && s.containers[s.apps[a].container.value] == Primary(s.domains).value
  {
    InvHoldsThroughout(events, states, i);
    PrimaryFound(states[i].domains, Zone(states[i]));
    assert AppFits(states[i], a);
  }

  // ---- the window ---------------------------------------------------------------------------------

  predicate At(s: State, a: AppId, l: Launch) { Launching(s, a) && s.launches[a] == l }

  lemma PrepareStep(s: State, a: AppId, domain: string) returns (s': State)
    requires At(s, a, Build(Some(domain)))
    ensures Step(s, PrepareEnv(a), s') && At(s', a, Prepared(domain))
    ensures s'.containers == s.containers && s'.domains == s.domains
  {
    s' := s.(launches := s.launches[a := Prepared(domain)]);
    assert s.apps[a := s.apps[a]] == s.apps;
  }

  lemma MarkStep(s: State, a: AppId, domain: string) returns (s': State)
    requires At(s, a, Prepared(domain))
    ensures Step(s, MarkReady(a), s') && At(s', a, Ready(domain))
    ensures s'.containers == s.containers && s'.domains == s.domains
  {
    s' := s.(apps := s.apps[a := MarkedStarting(s.apps[a])], launches := s.launches[a := Ready(domain)]);
  }

  lemma RunStep(s: State, a: AppId, domain: string, cid: Cid) returns (s': State)
    requires At(s, a, Ready(domain)) && cid !in s.containers
    ensures Step(s, RunContainer(a, cid), s') && At(s', a, Up(domain, cid))
    ensures s'.containers == s.containers[cid := domain] && s'.domains == s.domains
  {
    s' := s.(containers := s.containers[cid := domain], alive := s.alive + {cid},
             launches := s.launches[a := Up(domain, cid)]);
  }

  lemma RecordStep(s: State, a: AppId, domain: string, cid: Cid) returns (s': State)
    requires At(s, a, Up(domain, cid))
    ensures Step(s, RecordContainer(a), s') && At(s', a, Recorded(domain, cid)) && s'.apps[a].container == Some(cid)
    ensures s'.containers == s.containers && s'.domains == s.domains
  {
    s' := s.(apps := s.apps[a := s.apps[a].(container := Some(cid))],
             launches := s.launches[a := Recorded(domain, cid)]);
  }

  lemma AnswerStep(s: State, a: AppId, domain: string, cid: Cid) returns (s': State)
    requires At(s, a, Recorded(domain, cid)) && s.apps[a].container == Some(cid)
    ensures Step(s, Settle(a, true), s') && RunsIn(s', a, cid)
    ensures s'.containers == s.containers && s'.domains == s.domains
  {
    s' := s.(apps := s.apps[a := s.apps[a].(status := Running, message := NoMessage)], launches := s.launches - {a});
  }

  predicate RunsIn(s: State, a: AppId, cid: Cid) {
    a in s.apps && s.apps[a].status == Running && s.apps[a].container == Some(cid)
  }

  /** An install whose row is there may go on to a running app, with the domain it was prepared for. */
  lemma InstallMayFinish(s: State, a: AppId, domain: string, cid: Cid) returns (states: seq<State>, events: seq<Event>)
    requires At(s, a, Build(Some(domain))) && cid !in s.containers
    ensures Path(states, events) && states[0] == s
    ensures var last := states[|events|];
            RunsIn(last, a, cid) && last.containers == s.containers[cid := domain] && last.domains == s.domains
  {
    var s1 := PrepareStep(s, a, domain);
    var s2 := MarkStep(s1, a, domain);
    var s3 := RunStep(s2, a, domain, cid);
    var s4 := RecordStep(s3, a, domain, cid);
    var s5 := AnswerStep(s4, a, domain, cid);
    events := [PrepareEnv(a), MarkReady(a), RunContainer(a, cid), RecordContainer(a), Settle(a, true)];
    states := [s, s1, s2, s3, s4, s5];
  }

  lemma InsertStep(s: State, a: AppId, name: string) returns (s': State)
    requires a in s.installs && a !in s.apps
    ensures Step(s, Install(a, name, true), s') && At(s', a, Build(Some(s.installs[a])))
    ensures s'.containers == s.containers && s'.domains == s.domains
  {
    s' := s.(apps := s.apps[a := App(name, Building, NoMessage, None, true)],
             launches := s.launches[a := Build(Some(s.installs[a]))], young := s.young + {a},
             installs := s.installs - {a});
  }

  /** A promotion in that window is not harmless: whatever the zone, the install it fell into may go
      on to a running app whose container was given the domain that is no longer primary. */
  lemma PromotionInTheWindowLeavesAStaleApp(s: State, host: string, s': State, a: AppId, name: string, cid: Cid)
    requires Inv(s) && Promotes(s, host, s') && PromotionOutcome(s.domains, s.apps, host) == Promoted
    requires a in s.installs && a !in s.apps && cid !in s.containers
    ensures exists states: seq<State>, events: seq<Event> ::
              && Path(states, events) && states[0] == s'
              && var last := states[|events|];
                 RunsIn(last, a, cid) && Stamped(last.containers, cid, Zone(s)) && Zone(s) != Zone(last)
  {
    NewPrimary(s, host, s');
    var states, events := WholeInstallMayFinish(s', a, name, cid);
  }

  lemma WholeInstallMayFinish(s: State, a: AppId, name: string, cid: Cid) returns (states: seq<State>,
                              events: seq<Event>)
    requires a in s.installs && a !in s.apps && cid !in s.containers
    ensures Path(states, events) && states[0] == s
    ensures var last := states[|events|];
            RunsIn(last, a, cid) && Stamped(last.containers, cid, s.installs[a]) && last.domains == s.domains
  {
    var start := InsertStep(s, a, name);
    var rest, more := InstallMayFinish(start, a, s.installs[a], cid);
    PathStarts(s, Install(a, name, true), rest, more);
    states, events := [s] + rest, [Install(a, name, true)] + more;
    assert states[|events|] == rest[|more|];
  }

  lemma PathStarts(s: State, event: Event, states: seq<State>, events: seq<Event>)
    requires Path(states, events) && Step(s, event, states[0])
    ensures Path([s] + states, [event] + events)
  {
    var ss, es := [s] + states, [event] + events;
    forall i | 0 <= i < |es| ensures Step(ss[i], es[i], ss[i + 1]) {
      if i > 0 {
        assert ss[i] == states[i - 1] && es[i] == events[i - 1] && ss[i + 1] == states[i];
      }
    }
  }

  // ---- the restart marker ----------------------------------------------------------------------

  /** The app is to be restarted because the primary domain changed. */
  predicate Marked(r: App) { r.status == Starting && r.message == RestartMarker }

  predicate AwaitsRestart(s: State, a: AppId) { a in s.apps && Marked(s.apps[a]) }

  /** A promotion marks every app that runs, or failed leaving a container. */
  lemma PromotionMarksLiveApps(s: State, host: string, s': State, a: AppId)
    requires Promotes(s, host, s') && PromotionOutcome(s.domains, s.apps, host) == Promoted
    requires a in s.apps
    ensures AwaitsRestart(s', a) <==>
            s.apps[a].status == Running || (s.apps[a].status == Error && s.apps[a].container.Some?)
    ensures s'.apps[a] ==
            if AwaitsRestart(s', a) then s.apps[a].(status := Starting, message := RestartMarker) else s.apps[a]
  {
    if Busy(s.apps[a]) {
      BusyAppsAreNamed(s.apps);
      assert false;
    }
  }

  predicate Over(s: State, a: AppId) {
    a in s.apps && (s.apps[a].status == Running || s.apps[a].status == Error)
  }

  /** A promotion goes through exactly if the host has a row other than that of the primary there is,
      and no app is building, starting or being removed; and the apps it names as busy are those. */
  lemma PromotedExactlyWhen(ds: Domains, apps: Apps, host: string)
    ensures PromotionOutcome(ds, apps, host) == Promoted <==>
            && Find(ds, host).Some? && Primary(ds).Some? && Find(ds, host).value.name != Primary(ds).value
            && forall a :: a in apps ==> apps[a].status !in {Building, Starting, Removing}
    ensures var r := PromotionOutcome(ds, apps, host);
            r.AppsBusy? ==>
              r.names == set a | a in apps && apps[a].status in {Building, Starting, Removing} :: apps[a].name
  {
    BusyAppsAreNamed(apps);
    var busy := BusyNames(apps);
    if n :| n in busy {
      var a :| a in apps && Busy(apps[a]) && apps[a].name == n;
    }
  }

  /** No step takes the marker from a starting app except by ending its launch. */
  lemma StepKeepsMarker(s: State, event: Event, s': State, a: AppId)
    requires Step(s, event, s') && AwaitsRestart(s, a)
    ensures AwaitsRestart(s', a) || Over(s', a)
  {
    if IsLaunching(event) {
      LaunchingKeepsMarker(s, event, s', a);
    } else if IsEnding(event) {
      EndingTakesMarkerOnlyAtTheEnd(s, event, s', a);
    }
  }

  lemma LaunchingKeepsMarker(s: State, event: Event, s': State, a: AppId)
    requires Step(s, event, s') && AwaitsRestart(s, a) && IsLaunching(event)
    ensures AwaitsRestart(s', a)
  {
  }

  lemma EndingTakesMarkerOnlyAtTheEnd(s: State, event: Event, s': State, a: AppId)
    requires Step(s, event, s') && AwaitsRestart(s, a) && IsEnding(event)
    ensures AwaitsRestart(s', a) || Over(s', a)
  {
  }

  /** Through every crash, boot and re-mark, the app awaits its restart until it runs or has failed. */
  lemma {:induction false} MarkerLasts(events: seq<Event>, states: seq<State>, i: nat, j: nat, a: AppId)
    requires IsRun(events, states) && i <= j < |states| && AwaitsRestart(states[i], a)
    requires forall k :: i < k <= j ==> !Over(states[k], a)
    ensures AwaitsRestart(states[j], a)
  {
    if i < j {
      var k := j - 1;
      MarkerLasts(events, states, i, k, a);
      StepKeepsMarker(states[k], events[k], states[k + 1], a);
    }
  }
}
