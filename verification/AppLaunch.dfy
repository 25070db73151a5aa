/**
 The operations that change the `apps` and `domains` tables while the zone is up: promotion as
 one transaction, and a launch as the series of steps it really is.
 */
module AppLaunch {
  import opened Options
  import opened DomainTable
  import opened AppLifecycle
  import opened AppStatus

  /** How one run of `run_app_image` goes: an exception before the container is started, while it
      is started, before or after it is recorded (the cleanup working or not), or no exception. */
  datatype Fate =
    | FailsEarly
    | FailsToRun
    | FailsToRecord(cleaned: bool)
    | FailsWaiting(cleaned: bool)
    | Returns(answers: bool)

  /** The row a launch of `r` ends with when its last write is made. */
  function Final(r: App, cid: Cid, fate: Fate, message: Message): App {
    match fate
    case FailsEarly => r.(status := Error, message := message)
    case FailsToRun => r.(status := Error, message := message, container := None)
    case FailsToRecord(cleaned) =>
      r.(status := Error, message := message, container := if cleaned then None else Some(cid))
    case FailsWaiting(cleaned) =>
      r.(status := Error, message := message, container := if cleaned then None else Some(cid))
    case Returns(answers) =>
      if answers then r.(status := Running, message := NoMessage, container := Some(cid))
      else r.(status := Error, message := OtherText, container := Some(cid))
  }

  /** A launch that its app answers ends running, without a message; any other in an error: the exception's
      if one was raised, and then an exception before the container is started keeps the old one. */
  predicate Ended(r: App, r': App, fate: Fate, message: Message) {
    && r'.name == r.name && r'.hasManifest == r.hasManifest
    && r'.status == (if fate == Returns(true) then Running else Error)
    && r'.message == (if fate == Returns(true) then NoMessage else if fate.Returns? then OtherText else message)
    && (fate.FailsEarly? ==> r'.container == r.container)
  }

  class Node {
    var domains: Domains
    var apps: Apps
    var containers: map<Cid, string>
    var alive: set<Cid>
    var installs: map<AppId, string>
    var launches: map<AppId, Launch>
    var young: set<AppId>
    var booted: bool
    var exclusive: bool

    function View(): State
      reads this
    {
      State(domains, apps, containers, alive, installs, launches, young, booted, exclusive)
    }

    constructor (s: State)
      ensures View() == s
    {
      domains, apps, containers, alive := s.domains, s.apps, s.containers, s.alive;
      installs, launches, young := s.installs, s.launches, s.young;
      booted, exclusive := s.booted, s.exclusive;
    }

    /** One transaction: nothing is written unless everything is. */
    method SetPrimaryDomain(host: string) returns (r: Promotion)
      requires booted && !exclusive
      modifies this
      ensures r == PromotionOutcome(old(domains), old(apps), host)
      ensures Promotes(old(View()), host, View())
      ensures Inv(old(View())) && (r == Promoted ==> old(installs) == map[]) ==> Inv(View())
    {
      ghost var before := View();
      var target, current := Find(domains, host), Primary(domains);
      if target == None {
        r := NoSuchDomain;
      } else if current == None {
        r := NoPrimary;
      } else if target.value.name == current.value {
        r := AlreadyPrimary;
      } else {
        var busy := BusyNames(apps);
        if busy != {} {
          r := AppsBusy(busy);
        } else {
          domains := Moved(domains, current.value, target.value.name);
          apps := map a | a in apps :: Demoted(apps[a]);
          r := Promoted;
        }
      }
      if Inv(before) && (r == Promoted ==> before.installs == map[]) {
        PromotionKeepsInv(before, host, View());
      }
    }

    method MarkAppStarting(a: AppId)
      requires a in apps
      modifies this`apps
      ensures apps == old(apps)[a := MarkedStarting(old(apps)[a])] && apps[a].status == Starting
      ensures apps[a].message == if old(apps)[a].message == RestartMarker then RestartMarker else NoMessage
    {
      var r := apps[a];
      apps := apps[a := r.(status := Starting, message := if r.message == RestartMarker then r.message else NoMessage)];
    }

    /** `run_app_image`, of an app whose image is there: every write it makes is a step, so a run
        that contains it is a run like any other.  `cid` is what podman answers; `saved` says
        whether the last write of a failure reaches the database. */
    method RunAppImage(a: AppId, cid: Cid, fate: Fate, message: Message, saved: bool)
      returns (ghost states: seq<State>, ghost events: seq<Event>)
      requires a in apps && a in launches && launches[a].Build? && cid !in containers
      requires message == CacheCorrupt || message == OtherText
      modifies this
      ensures Here(states, events) && states[0] == old(View())
      ensures a !in launches && OthersKept(a, old(apps))
      ensures saved || fate.Returns? ==> apps[a] == Final(old(apps)[a], cid, fate, message)
      ensures !saved && !fate.Returns? ==>
                if fate.FailsEarly? then apps[a] == old(apps)[a] else apps[a].status == Starting
      ensures saved || fate.Returns? ==> NothingForgotten(a, cid) && Ended(old(apps)[a], apps[a], fate, message)
    {
      states, events := [View()], [];
      if fate.FailsEarly? {
        states, events := Abandon(a, apps[a].container, message, saved, states, events);
        return;
      }
      states, events := Prepare(a, states, events);
      states, events := LaunchPrepared(a, cid, fate, message, saved, states, events);
    }

    /** The rest of a launch once its environment is there. */
    method LaunchPrepared(a: AppId, cid: Cid, fate: Fate, message: Message, saved: bool,
                          ghost states: seq<State>, ghost events: seq<Event>)
      returns (ghost longer: seq<State>, ghost more: seq<Event>)
      requires a in apps && a in launches && launches[a].Prepared? && cid !in containers && Here(states, events)
      requires message == CacheCorrupt || message == OtherText
      requires !fate.FailsEarly?
      modifies this
      ensures Here(longer, more) && longer[0] == states[0]
      ensures a !in launches && OthersKept(a, old(apps))
      ensures saved || fate.Returns? ==> apps[a] == Final(old(apps)[a], cid, fate, message)
      ensures saved || fate.Returns? ==> NothingForgotten(a, cid)
      ensures !saved && !fate.Returns? ==> apps[a].status == Starting
    {
      longer, more := Mark(a, states, events);
      if fate.FailsToRun? {
        longer, more := Abandon(a, None, message, saved, longer, more);
        return;
      }
      longer, more := Run(a, cid, longer, more);
      longer, more := SeeThrough(a, cid, fate, message, saved, longer, more);
    }

    /** The rest of a launch once its container is up. */
    method SeeThrough(a: AppId, cid: Cid, fate: Fate, message: Message, saved: bool,
                      ghost states: seq<State>, ghost events: seq<Event>)
      returns (ghost longer: seq<State>, ghost more: seq<Event>)
      requires a in apps && a in launches && launches[a].Up? && launches[a].cid == cid && Here(states, events)
      requires message == CacheCorrupt || message == OtherText
      requires !fate.FailsEarly? && !fate.FailsToRun?
      modifies this
      ensures Here(longer, more) && longer[0] == states[0]
      ensures a !in launches && OthersKept(a, old(apps))
      ensures saved || fate.Returns? ==> apps[a] == Final(old(apps)[a], cid, fate, message)
      ensures saved || fate.Returns? ==> NothingForgotten(a, cid)
      ensures !saved && !fate.Returns? ==> apps[a].status == old(apps)[a].status
    {
      if fate.FailsToRecord? {
        longer, more := CleanUp(a, cid, fate.cleaned, message, saved, states, events);
        return;
      }
      longer, more := Record(a, states, events);
      if fate.FailsWaiting? {
        longer, more := CleanUp(a, cid, fate.cleaned, message, saved, longer, more);
        return;
      }
      longer, more := SettleDown(a, fate.answers, longer, more);
    }

    /** If the container of the launch is up, the row names it. */
    predicate NothingForgotten(a: AppId, cid: Cid)
      reads this
    {
      a in apps && (cid in containers && cid in alive ==> apps[a].container == Some(cid))
    }

    ghost predicate OthersKept(a: AppId, before: Apps)
      reads this
    {
      apps.Keys == before.Keys && forall b :: b in apps && b != a ==> apps[b] == before[b]
    }

    /** `states` is a path to the present. */
    ghost predicate Here(states: seq<State>, events: seq<Event>)
      reads this
    {
      Path(states, events) && states[|events|] == View()
    }

    /** The environment is prepared, unless install did. */
    method Prepare(a: AppId, ghost states: seq<State>, ghost events: seq<Event>)
      returns (ghost longer: seq<State>, ghost more: seq<Event>)
      requires a in apps && a in launches && launches[a].Build? && Here(states, events)
      modifies this
      ensures Here(longer, more) && longer[0] == states[0]
      ensures PreparesEnv(old(View()), a, View())
    {
      var domain := launches[a].prepared.GetOr(Zone(View()));
      launches := launches[a := Prepared(domain)];
      assert apps[a := apps[a]] == apps;
      longer, more := Extend(states, events, PrepareEnv(a));
    }

    method Mark(a: AppId, ghost states: seq<State>, ghost events: seq<Event>)
      returns (ghost longer: seq<State>, ghost more: seq<Event>)
      requires a in apps && a in launches && launches[a].Prepared? && Here(states, events)
      modifies this
      ensures Here(longer, more) && longer[0] == states[0]
      ensures MarksReady(old(View()), a, View())
    {
      var domain := launches[a].domain;
      MarkAppStarting(a);
      launches := launches[a := Ready(domain)];
      longer, more := Extend(states, events, MarkReady(a));
    }

    method Run(a: AppId, cid: Cid, ghost states: seq<State>, ghost events: seq<Event>)
      returns (ghost longer: seq<State>, ghost more: seq<Event>)
      requires a in launches && launches[a].Ready? && cid !in containers && Here(states, events)
      modifies this
      ensures Here(longer, more) && longer[0] == states[0]
      ensures RunsContainer(old(View()), a, cid, View())
    {
      var domain := launches[a].domain;
      containers, alive, launches := containers[cid := domain], alive + {cid}, launches[a := Up(domain, cid)];
      longer, more := Extend(states, events, RunContainer(a, cid));
    }

    method Record(a: AppId, ghost states: seq<State>, ghost events: seq<Event>)
      returns (ghost longer: seq<State>, ghost more: seq<Event>)
      requires a in apps && a in launches && launches[a].Up? && Here(states, events)
      modifies this
      ensures Here(longer, more) && longer[0] == states[0]
      ensures RecordsContainer(old(View()), a, View())
    {
      var l := launches[a];
      apps, launches := apps[a := apps[a].(container := Some(l.cid))], launches[a := Recorded(l.domain, l.cid)];
      longer, more := Extend(states, events, RecordContainer(a));
    }

    method SettleDown(a: AppId, answers: bool, ghost states: seq<State>, ghost events: seq<Event>)
      returns (ghost longer: seq<State>, ghost more: seq<Event>)
      requires a in apps && a in launches && launches[a].Recorded? && Here(states, events)
      modifies this
      ensures Here(longer, more) && longer[0] == states[0]
      ensures Settles(old(View()), a, answers, View())
    {
      apps := apps[a := if answers then apps[a].(status := Running, message := NoMessage)
                        else apps[a].(status := Error, message := OtherText)];
      launches := launches - {a};
      longer, more := Extend(states, events, Settle(a, answers));
    }

    ghost method Extend(states: seq<State>, events: seq<Event>, event: Event)
      returns (longer: seq<State>, more: seq<Event>)
      requires Path(states, events) && Step(states[|events|], event, View())
      ensures longer == states + [View()] && more == events + [event] && Path(longer, more)
    {
      PathGrows(states, events, event, View());
      longer, more := states + [View()], events + [event];
    }

    /** The failed container is stopped if it can be. */
    method CleanUp(a: AppId, cid: Cid, cleaned: bool, message: Message, saved: bool,
                   ghost states: seq<State>, ghost events: seq<Event>)
      returns (ghost longer: seq<State>, ghost more: seq<Event>)
      requires a in apps && a in launches && (message == CacheCorrupt || message == OtherText)
      requires Here(states, events)
      modifies this
      ensures Here(longer, more) && longer[0] == states[0]
      ensures a !in launches && OthersKept(a, old(apps))
      ensures apps[a] == if saved then old(apps)[a].(status := Error, message := message,
                                                     container := if cleaned then None else Some(cid))
                         else old(apps)[a]
      ensures cleaned ==> cid !in alive
    {
      longer, more := states, events;
      if cleaned {
        alive := alive - {cid};
        longer, more := Extend(longer, more, ContainerDies(cid));
      }
      longer, more := Abandon(a, if cleaned then None else Some(cid), message, saved, longer, more);
    }

    /** The last write of a failed launch. */
    method Abandon(a: AppId, keep: Option<Cid>, message: Message, saved: bool,
                   ghost states: seq<State>, ghost events: seq<Event>)
      returns (ghost longer: seq<State>, ghost more: seq<Event>)
      requires a in apps && a in launches && (message == CacheCorrupt || message == OtherText)
      requires Here(states, events)
      modifies this
      ensures Here(longer, more) && longer[0] == states[0]
      ensures a !in launches && OthersKept(a, old(apps))
      ensures apps[a] == if saved then old(apps)[a].(status := Error, message := message, container := keep)
                         else old(apps)[a]
      ensures alive == old(alive) && containers == old(containers)
    {
      if saved {
        apps := apps[a := apps[a].(status := Error, message := message, container := keep)];
      }
      launches := launches - {a};
      longer, more := Extend(states, events, if saved then FailLaunch(a, keep, message) else FailUnrecorded(a));
    }
  }
}
