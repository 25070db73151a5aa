/**
 Launches, primary-domain promotions, crashes and boot recoveries over the `apps` table
 (core/apps.py, core/domains.py, core/startup.py), one step at a time.

 Every container remembers the primary domain its environment was prepared with.
 */
module AppLifecycle {
  import opened Options
  import opened AppStatus
  import opened DomainTable

  /** The restart marker of a promotion, a text with the corrupt-build-cache marker, any other. */
  datatype Message = NoMessage | RestartMarker | CacheCorrupt | OtherText

  datatype App = App(name: string, status: Status, message: Message, container: Option<Cid>, hasManifest: bool)

  type Apps = map<AppId, App>

  /** A launch in flight: building (with an environment prepared at install, or none yet),
      environment prepared, marked starting, container up, container recorded. */
  datatype Launch =
    | Build(prepared: Option<string>)
    | Prepared(domain: string)
    | Ready(domain: string)
    | Up(domain: string, cid: Cid)
    | Recorded(domain: string, cid: Cid)

  /** `installs`: environments prepared for apps whose row is not there yet.
      `young`: apps inserted since this process started; `booted`: the boot check has run.
      `exclusive`: an archive operation holds the lock that promotions take too. */
  datatype State = State(domains: Domains, apps: Apps, containers: map<Cid, string>, alive: set<Cid>,
                         installs: map<AppId, string>, launches: map<AppId, Launch>, young: set<AppId>,
                         booted: bool, exclusive: bool)

  // ---- set_primary_domain ------------------------------------------------------------------

  datatype Promotion = Promoted | AlreadyPrimary | NoSuchDomain | NoPrimary | AppsBusy(names: set<string>)

  predicate Underway(r: App) { InLaunch(r.status) }

  predicate Busy(r: App) { Underway(r) || r.status == Removing }

  function BusyNames(apps: Apps): set<string> { set a | a in apps && Busy(apps[a]) :: apps[a].name }

  /** What a promotion makes of one app. */
  function Demoted(r: App): App {
    if r.status == Running || (r.status == Error && r.container.Some?)
    then r.(status := Starting, message := RestartMarker)
    else r
  }

  function DemoteAll(apps: Apps): Apps { map a | a in apps :: Demoted(apps[a]) }

  function PromotionOutcome(ds: Domains, apps: Apps, host: string): Promotion {
    var target := Find(ds, host);
    var current := Primary(ds);
    if target == None then NoSuchDomain
    else if current == None then NoPrimary
    else if target.value.name == current.value then AlreadyPrimary
    else if BusyNames(apps) != {} then AppsBusy(BusyNames(apps))
    else Promoted
  }

  /** `_mark_app_starting`: keeps the restart marker, clears every other text. */
  function MarkedStarting(r: App): App {
    r.(status := Starting, message := if r.message == RestartMarker then RestartMarker else NoMessage)
  }

  // ---- the boot check ------------------------------------------------------------------------

  /** What the boot check can see of the outside: running containers, images, checkouts, and
      whose checkout path happens to spell the corrupt-cache marker. */
  datatype Sight = Sight(running: set<Cid>, image: AppId -> bool, repo: AppId -> bool, oddPath: AppId -> bool)

  datatype Verdict = Leave(row: App) | Recover(row: App, promoted: bool, build: bool)

  /** One row of the loop in `check_app_status`. */
  function Examine(o: Sight, young: bool, a: AppId, r: App): Verdict {
    if r.status != Running && r.status != Starting && r.status != Building then Leave(r)
    else
      var live := r.container.Some? && r.container.value in o.running;
      var promoted := r.status == Starting && r.message == RestartMarker;
      if !promoted && r.status == Starting && young then Leave(r)
      else if live && r.status != Starting then Leave(r.(status := Running))
      else
        var build := r.status == Building || !o.image(a);
        if !(r.hasManifest || o.repo(a)) || (build && !o.repo(a)) then
          Leave(r.(status := Error, message := if o.oddPath(a) then CacheCorrupt else OtherText))
        else if r.container == None && !promoted && young then Leave(r.(status := Starting))
        else Recover(r.(status := Starting), promoted, build)
  }

  /** `_recover_cache_corrupt_apps`, for one row. */
  predicate Corrupt(o: Sight, a: AppId, r: App) { r.status == Error && r.message == CacheCorrupt && o.repo(a) }

  function Swept(o: Sight, a: AppId, r: App): App {
    if Corrupt(o, a, r) then r.(status := Starting, message := NoMessage) else r
  }

  /** What the whole check makes of one row. */
  function Booted(o: Sight, young: bool, a: AppId, r: App): App { Swept(o, a, Examine(o, young, a, r).row) }

  function BootAll(o: Sight, young: set<AppId>, apps: Apps): Apps {
    map a | a in apps :: Booted(o, a in young, a, apps[a])
  }

  // ---- steps ---------------------------------------------------------------------------------

  datatype Event =
    | PrepareInstall(app: AppId)
    | AbandonInstall(app: AppId)
    | Install(app: AppId, name: string, hasManifest: bool)
    | StartApp(app: AppId)
    | RestartApp(app: AppId)
    | PrepareEnv(app: AppId)
    | MarkReady(app: AppId)
    | RunContainer(app: AppId, cid: Cid)
    | RecordContainer(app: AppId)
    | Settle(app: AppId, answers: bool)
    | FailLaunch(app: AppId, keep: Option<Cid>, message: Message)
    | FailUnrecorded(app: AppId)
    | RecordFailure(app: AppId, message: Message)
    | ContainerDies(cid: Cid)
    | TakeLock
    | ReleaseLock
    | Promote(host: string)
    | AddDomain(name: string)
    | RemoveDomain(name: string)
    | Crash(survivors: set<Cid>)
    | Boot(sight: Sight)

  function Zone(s: State): string { if Primary(s.domains).Some? then Primary(s.domains).value else "" }

  function LaunchOf(s: State, a: AppId): Option<Launch> { if a in s.launches then Some(s.launches[a]) else None }

  predicate CanLaunch(s: State, a: AppId) { s.booted && a in s.apps && a !in s.launches }

  predicate Launching(s: State, a: AppId) { a in s.launches && a in s.apps }

  /** `insert_and_deploy`: the environment is prepared first. */
  predicate PreparesInstall(s: State, a: AppId, s': State) {
    a !in s.apps && a !in s.installs && s' == s.(installs := s.installs[a := Zone(s)])
  }

  /** Then the row is inserted as building, and the thread started. */
  predicate Installs(s: State, a: AppId, name: string, hasManifest: bool, s': State) {
    && a !in s.apps && a in s.installs
    && s' == s.(apps := s.apps[a := App(name, Building, NoMessage, None, hasManifest)],
                launches := s.launches[a := Build(Some(s.installs[a]))], young := s.young + {a},
                installs := s.installs - {a})
  }

  /** The row becomes `r` and the launch `l`. */
  predicate Advances(s: State, a: AppId, r: App, l: Launch, s': State) {
    s' == s.(apps := s.apps[a := r], launches := s.launches[a := l])
  }

  /** The row becomes `r` and the launch is over. */
  predicate Ends(s: State, a: AppId, r: App, s': State) {
    s' == s.(apps := s.apps[a := r], launches := s.launches - {a})
  }

  /** `restart_app_process`: recovery restarts apps it has marked, and apps quiesced for an archive
      operation are restarted while that holds the lock. */
  predicate Restarts(s: State, a: AppId, s': State) {
    && CanLaunch(s, a) && (s.apps[a].status == Starting || s.exclusive)
    && Advances(s, a, s.apps[a], Prepared(Zone(s)), s')
  }

  /** `run_app_image` prepares the environment, unless install did. */
  predicate PreparesEnv(s: State, a: AppId, s': State) {
    && Launching(s, a) && s.launches[a].Build?
    && Advances(s, a, s.apps[a], Prepared(s.launches[a].prepared.GetOr(Zone(s))), s')
  }

  /** Then it marks the row. */
  predicate MarksReady(s: State, a: AppId, s': State) {
    && Launching(s, a) && s.launches[a].Prepared?
    && Advances(s, a, MarkedStarting(s.apps[a]), Ready(s.launches[a].domain), s')
  }

  predicate RunsContainer(s: State, a: AppId, cid: Cid, s': State) {
    && a in s.launches && s.launches[a].Ready? && cid !in s.containers
    && s' == s.(containers := s.containers[cid := s.launches[a].domain], alive := s.alive + {cid},
                launches := s.launches[a := Up(s.launches[a].domain, cid)])
  }

  predicate RecordsContainer(s: State, a: AppId, s': State) {
    && Launching(s, a) && s.launches[a].Up?
    && Advances(s, a, s.apps[a].(container := Some(s.launches[a].cid)),
                Recorded(s.launches[a].domain, s.launches[a].cid), s')
  }

  /** The app answers, or does not. */
  predicate Settles(s: State, a: AppId, answers: bool, s': State) {
    && Launching(s, a) && s.launches[a].Recorded?
    && Ends(s, a, if answers then s.apps[a].(status := Running, message := NoMessage)
                  else s.apps[a].(status := Error, message := OtherText), s')
  }

  /** Any exception of a launch, wherever it is caught; the container is kept, dropped, or is the
      one that could not be cleaned up. */
  predicate Fails(s: State, a: AppId, keep: Option<Cid>, message: Message, s': State) {
    && Launching(s, a) && (message == CacheCorrupt || message == OtherText)
    && Ends(s, a, s.apps[a].(status := Error, message := message, container := keep), s')
  }

  /** A failure written outside a launch: a recovery that was refused, or the second write of the
      thread whose launch failed. */
  predicate RecordsFailure(s: State, a: AppId, message: Message, s': State) {
    && a in s.apps && a !in s.launches && (s.apps[a].status == Starting || s.apps[a].status == Error)
    && (message == CacheCorrupt || message == OtherText)
    && Ends(s, a, s.apps[a].(status := Error, message := message), s')
  }

  predicate Promotes(s: State, host: string, s': State) {
    s.booted && !s.exclusive
    && if PromotionOutcome(s.domains, s.apps, host) != Promoted then s' == s
       else s' == s.(domains := Moved(s.domains, Zone(s), Find(s.domains, host).value.name), apps := DemoteAll(s.apps))
  }

  /** The operation ends when the apps it restarted have been launched. */
  predicate Releases(s: State, s': State) {
    && s.exclusive && (forall a :: a in s.launches && a in s.apps ==> Underway(s.apps[a]))
    && s' == s.(exclusive := false)
  }

  /** `check_app_status`; an app being installed by this very process has its checkout. */
  predicate Boots(s: State, o: Sight, s': State) {
    && !s.booted && o.running <= s.alive && (forall a :: a in s.launches ==> o.repo(a))
    && s' == s.(apps := BootAll(o, s.young, s.apps), booted := true)
  }

  ghost predicate Step(s: State, event: Event, s': State) {
    match event
    case PrepareInstall(a) => PreparesInstall(s, a, s')
    case AbandonInstall(a) => s' == s.(installs := s.installs - {a})
    case Install(a, name, hasManifest) => Installs(s, a, name, hasManifest, s')
    case StartApp(a) => CanLaunch(s, a) && Advances(s, a, MarkedStarting(s.apps[a]), Build(None), s')
    case RestartApp(a) => Restarts(s, a, s')
    case PrepareEnv(a) => PreparesEnv(s, a, s')
    case MarkReady(a) => MarksReady(s, a, s')
    case RunContainer(a, cid) => RunsContainer(s, a, cid, s')
    case RecordContainer(a) => RecordsContainer(s, a, s')
    case Settle(a, answers) => Settles(s, a, answers, s')
    case FailLaunch(a, keep, message) => Fails(s, a, keep, message, s')
    case FailUnrecorded(a) => a in s.launches && s' == s.(launches := s.launches - {a})
    case RecordFailure(a, message) => RecordsFailure(s, a, message, s')
    case ContainerDies(cid) => s' == s.(alive := s.alive - {cid})
    case TakeLock => s.booted && !s.exclusive && s' == s.(exclusive := true)
    case ReleaseLock => Releases(s, s')
    case Promote(host) => Promotes(s, host, s')
    case AddDomain(name) => s' == s.(domains := Upserted(s.domains, name, false).GetOr(s.domains))
    case RemoveDomain(name) => s' == s.(domains := DomainTable.Removed(s.domains, name))
    case Crash(survivors) =>
      s' == s.(installs := map[], launches := map[], young := {}, booted := false, exclusive := false,
               alive := s.alive * survivors)
    case Boot(o) => Boots(s, o, s')
  }

  // ---- the invariant ---------------------------------------------------------------------------

  predicate Stamped(containers: map<Cid, string>, cid: Cid, zone: string) {
    cid in containers && containers[cid] == zone
  }

  /** A running app has a container stamped with the primary domain; while a launch is in flight its
      row is busy, or the lock is held, and whatever it has prepared is for the primary. */
  predicate Fits(zone: string, containers: map<Cid, string>, exclusive: bool, r: App, l: Option<Launch>) {
    && (r.status == Running ==> r.container.Some? && Stamped(containers, r.container.value, zone))
    && (r.status == Building ==> r.container == None)
    && match l
       case None => true
       case Some(Build(prepared)) => prepared.GetOr(zone) == zone && Underway(r)
       case Some(Prepared(domain)) =>
         domain == zone && (Underway(r) || exclusive)
       case Some(Ready(domain)) => domain == zone && r.status == Starting
       case Some(Up(domain, cid)) => domain == zone && r.status == Starting && Stamped(containers, cid, zone)
       case Some(Recorded(_, cid)) =>
         r.status == Starting && Stamped(containers, cid, zone) && r.container == Some(cid)
  }

  predicate AppFits(s: State, a: AppId)
    requires a in s.apps
  {
    Fits(Zone(s), s.containers, s.exclusive, s.apps[a], LaunchOf(s, a))
  }

  predicate AppsFit(s: State) { forall a :: a in s.apps ==> AppFits(s, a) }

  predicate LaunchesKnown(s: State) {
    forall a :: a in s.launches ==> a in s.apps && (!s.booted ==> a in s.young)
  }

  /** What installs have prepared is for the primary. */
  predicate InstallsCurrent(s: State) { forall a :: a in s.installs ==> s.installs[a] == Zone(s) }

  predicate Inv(s: State) {
    && UniqueNames(s.domains) && PrimaryIs(s.domains, Zone(s))
    && AppsFit(s) && LaunchesKnown(s) && InstallsCurrent(s)
  }

  // ---- every step keeps it ------------------------------------------------------------------------

  /** Only `a` changes, containers are at most added, and the launches in flight are known. */
  predicate OnlyChanges(s: State, a: AppId, s': State) {
    && s'.domains == s.domains && s'.booted == s.booted && s.young <= s'.young && s'.exclusive == s.exclusive
    && (forall b :: b in s'.installs ==> b in s.installs && s'.installs[b] == s.installs[b])
    && a in s'.apps && s'.apps == s.apps[a := s'.apps[a]]
    && (forall c :: c in s.containers ==> c in s'.containers && s'.containers[c] == s.containers[c])
    && (forall b :: b in s'.launches && b != a ==> b in s.launches && s'.launches[b] == s.launches[b])
    && (a in s'.launches && !s.booted ==> a in s'.young)
  }

  lemma OneAppKeepsInv(s: State, a: AppId, s': State)
    requires Inv(s) && OnlyChanges(s, a, s')
    requires AppFits(s', a)
    ensures Inv(s')
  {
    forall b | b in s'.apps ensures AppFits(s', b) {
      if b != a {
        assert AppFits(s, b);
      }
    }
  }

  lemma BeginningsKeepInv(s: State, event: Event, s': State)
    requires Inv(s) && Step(s, event, s')
    requires event.Install? || event.StartApp? || event.RestartApp? || event.PrepareEnv?
    ensures Inv(s')
  {
    assert event.app in s.apps ==> AppFits(s, event.app);
    OneAppKeepsInv(s, event.app, s');
  }

  lemma MarkReadyKeepsInv(s: State, a: AppId, s': State)
    requires Inv(s) && MarksReady(s, a, s')
    ensures Inv(s')
  {
    assert AppFits(s, a);
    OneAppKeepsInv(s, a, s');
  }

  lemma RunContainerKeepsInv(s: State, a: AppId, cid: Cid, s': State)
    requires Inv(s) && RunsContainer(s, a, cid, s')
    ensures Inv(s')
  {
    assert AppFits(s, a);
    assert s'.apps == s.apps[a := s.apps[a]];
    OneAppKeepsInv(s, a, s');
  }

  lemma RecordContainerKeepsInv(s: State, a: AppId, s': State)
    requires Inv(s) && RecordsContainer(s, a, s')
    ensures Inv(s')
  {
    assert AppFits(s, a);
    OneAppKeepsInv(s, a, s');
  }

  lemma EndingsKeepInv(s: State, a: AppId, r: App, s': State)
    requires Inv(s) && a in s.apps && Ends(s, a, r, s')
    requires Fits(Zone(s), s.containers, s.exclusive, r, None)
    ensures Inv(s')
  {
    OneAppKeepsInv(s, a, s');
  }

  lemma SettlingKeepsInv(s: State, a: AppId, answers: bool, s': State)
    requires Inv(s) && Settles(s, a, answers, s')
    ensures Inv(s')
  {
    assert AppFits(s, a);
    EndingsKeepInv(s, a, s'.apps[a], s');
  }

  lemma DroppedLaunchKeepsInv(s: State, a: AppId, s': State)
    requires Inv(s) && a in s.launches && s' == s.(launches := s.launches - {a})
    ensures Inv(s')
  {
    assert AppFits(s, a);
    assert s'.apps == s.apps[a := s.apps[a]];
    OneAppKeepsInv(s, a, s');
  }

  lemma DeathKeepsInv(s: State, cid: Cid, s': State)
    requires Inv(s) && s' == s.(alive := s.alive - {cid})
    ensures Inv(s')
  {
    forall a | a in s'.apps ensures LaunchOf(s', a) == LaunchOf(s, a) {
    }
  }

  lemma CrashKeepsInv(s: State, survivors: set<Cid>, s': State)
    requires Inv(s) && Step(s, Crash(survivors), s')
    ensures Inv(s')
  {
    forall a | a in s'.apps ensures AppFits(s', a) {
      assert AppFits(s, a);
    }
  }

  lemma DomainStepsKeepInv(s: State, ds: Domains, s': State)
    requires Inv(s) && s' == s.(domains := ds) && UniqueNames(ds) && PrimaryIs(ds, Zone(s))
    ensures Inv(s')
  {
    PrimaryFound(ds, Zone(s));
    forall a | a in s'.apps ensures AppFits(s', a) {
      assert LaunchOf(s', a) == LaunchOf(s, a);
    }
  }

  lemma BusyAppsAreNamed(apps: Apps)
    ensures forall a :: a in apps && Busy(apps[a]) ==> apps[a].name in BusyNames(apps)
  {
  }

  lemma NoBusyNames(apps: Apps)
    requires BusyNames(apps) == {}
    ensures forall a :: a in apps ==> !Busy(apps[a])
  {
    BusyAppsAreNamed(apps);
  }

  lemma LaunchesAreBusy(s: State)
    requires Inv(s) && !s.exclusive
    ensures forall a :: a in s.launches ==> a in s.apps && Busy(s.apps[a])
  {
    forall a | a in s.launches ensures a in s.apps && Busy(s.apps[a]) {
      assert AppFits(s, a);
    }
  }

  /** Promotion is refused while any app is busy, so it meets no launch in flight. */
  lemma IdleMeansNoLaunch(s: State)
    requires Inv(s) && !s.exclusive && BusyNames(s.apps) == {}
    ensures s.launches == map[]
  {
    LaunchesAreBusy(s);
    NoBusyNames(s.apps);
  }

  /** A promotion keeps the invariant unless it slips between an install's environment and its row. */
  lemma PromotionKeepsInv(s: State, host: string, s': State)
    requires Inv(s) && Promotes(s, host, s')
    requires PromotionOutcome(s.domains, s.apps, host) == Promoted ==> s.installs == map[]
    ensures Inv(s')
  {
    if PromotionOutcome(s.domains, s.apps, host) == Promoted {
      NewPrimary(s, host, s');
      IdleMeansNoLaunch(s);
      NoBusyNames(s.apps);
      forall a | a in s'.apps ensures AppFits(s', a) {
        assert AppFits(s, a);
        assert s'.apps[a] == Demoted(s.apps[a]) && !Busy(s.apps[a]);
      }
    }
  }

  lemma NewPrimary(s: State, host: string, s': State)
    requires Inv(s) && Promotes(s, host, s') && PromotionOutcome(s.domains, s.apps, host) == Promoted
    ensures UniqueNames(s'.domains) && PrimaryIs(s'.domains, Zone(s')) && Zone(s') != Zone(s)
  {
    var target := Find(s.domains, host).value;
    Found(s.domains, host);
    PromotionMovesThePrimary(s.domains, Zone(s), target);
    PrimaryFound(s'.domains, target.name);
  }

  /** A promotion that goes through keeps the invariant if and only if no install has prepared an
      environment and not inserted its row yet. */
  lemma PromotionIsSafeExactlyWhen(s: State, host: string, s': State)
    requires Inv(s) && Promotes(s, host, s') && PromotionOutcome(s.domains, s.apps, host) == Promoted
    ensures Inv(s') <==> s.installs == map[]
  {
    if s.installs == map[] {
      PromotionKeepsInv(s, host, s');
    } else {
      NewPrimary(s, host, s');
      var a :| a in s.installs;
      assert a in s'.installs;
    }
  }

  lemma ReleaseKeepsInv(s: State, s': State)
    requires Inv(s) && Releases(s, s')
    ensures Inv(s')
  {
    forall a | a in s'.apps ensures AppFits(s', a) {
      assert AppFits(s, a) && LaunchOf(s', a) == LaunchOf(s, a);
    }
  }

  lemma LockAndPrepareKeepInv(s: State, event: Event, s': State)
    requires Inv(s) && Step(s, event, s') && (event.TakeLock? || event.PrepareInstall? || event.AbandonInstall?)
    ensures Inv(s')
  {
    forall a | a in s'.apps ensures AppFits(s', a) {
      assert AppFits(s, a) && LaunchOf(s', a) == LaunchOf(s, a);
    }
  }

  /** The promotion, if it is one that goes through, meets no install half-way. */
  predicate Apart(s: State, event: Event) {
    event.Promote? && PromotionOutcome(s.domains, s.apps, event.host) == Promoted ==> s.installs == map[]
  }

  lemma BootKeepsInv(s: State, o: Sight, s': State)
    requires Inv(s) && Boots(s, o, s')
    ensures Inv(s')
  {
    forall a | a in s'.apps ensures AppFits(s', a) {
      assert AppFits(s, a);
      assert LaunchOf(s', a) == LaunchOf(s, a);
    }
  }

  predicate IsEnding(event: Event) {
    || event.Settle? || event.FailLaunch? || event.FailUnrecorded? || event.RecordFailure?
    || event.ContainerDies? || event.Crash?
  }

  lemma EndingStepsKeepInv(s: State, event: Event, s': State)
    requires Inv(s) && Step(s, event, s') && IsEnding(event)
    ensures Inv(s')
  {
    match event
    case Settle(a, answers) => SettlingKeepsInv(s, a, answers, s');
    case FailLaunch(a, keep, message) => EndingsKeepInv(s, a, s'.apps[a], s');
    case FailUnrecorded(a) => DroppedLaunchKeepsInv(s, a, s');
    case RecordFailure(a, message) => EndingsKeepInv(s, a, s'.apps[a], s');
    case ContainerDies(cid) => DeathKeepsInv(s, cid, s');
    case Crash(survivors) => CrashKeepsInv(s, survivors, s');
  }

  predicate IsLaunching(event: Event) {
    || event.Install? || event.StartApp? || event.RestartApp? || event.PrepareEnv? || event.MarkReady?
    || event.RunContainer? || event.RecordContainer?
  }

  lemma LaunchingStepsKeepInv(s: State, event: Event, s': State)
    requires Inv(s) && Step(s, event, s') && IsLaunching(event)
    ensures Inv(s')
  {
    match event
    case Install(_, _, _) => BeginningsKeepInv(s, event, s');
    case StartApp(_) => BeginningsKeepInv(s, event, s');
    case RestartApp(_) => BeginningsKeepInv(s, event, s');
    case PrepareEnv(_) => BeginningsKeepInv(s, event, s');
    case MarkReady(a) => MarkReadyKeepsInv(s, a, s');
    case RunContainer(a, cid) => RunContainerKeepsInv(s, a, cid, s');
    case RecordContainer(a) => RecordContainerKeepsInv(s, a, s');
  }

  /** Every step keeps the invariant. */
  lemma StepKeepsInv(s: State, event: Event, s': State)
    requires Inv(s) && Step(s, event, s') && Apart(s, event)
    ensures Inv(s')
  {
    if IsLaunching(event) {
      LaunchingStepsKeepInv(s, event, s');
    } else if IsEnding(event) {
      EndingStepsKeepInv(s, event, s');
    } else {
      match event
      case PrepareInstall(_) => LockAndPrepareKeepInv(s, event, s');
      case AbandonInstall(_) => LockAndPrepareKeepInv(s, event, s');
      case TakeLock => LockAndPrepareKeepInv(s, event, s');
      case ReleaseLock => ReleaseKeepsInv(s, s');
      case Promote(host) => PromotionKeepsInv(s, host, s');
      case AddDomain(name) =>
        UpsertKeepsPrimary(s.domains, name, false, Zone(s));
        DomainStepsKeepInv(s, s'.domains, s');
      case RemoveDomain(name) =>
        RemovalKeepsPrimary(s.domains, name, Zone(s));
        DomainStepsKeepInv(s, s'.domains, s');
      case Boot(o) => BootKeepsInv(s, o, s');
    }
  }

  /** A stretch of a run: the states passed through. */
  ghost predicate Path(states: seq<State>, events: seq<Event>) {
    && |states| == |events| + 1
    && forall i :: 0 <= i < |events| ==> Step(states[i], events[i], states[i + 1])
  }

  lemma PathGrows(states: seq<State>, events: seq<Event>, event: Event, s: State)
    requires Path(states, events) && Step(states[|events|], event, s)
    ensures Path(states + [s], events + [event])
  {
    var ss, es := states + [s], events + [event];
    forall i | 0 <= i < |es| ensures Step(ss[i], es[i], ss[i + 1]) {
      if i < |events| {
        assert ss[i] == states[i] && ss[i + 1] == states[i + 1] && es[i] == events[i];
      }
    }
  }
}
