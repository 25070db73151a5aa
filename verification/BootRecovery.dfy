/**
 `check_app_status` (core/startup.py) as a loop over the rows, and what its two recovery lists hold.
 */
module BootRecovery {
  import opened Options
  import opened AppLifecycle
  import opened AppStatus
  import opened AppRuns
  import opened Sequences

  datatype Job = Job(app: AppId, build: bool)

  /** The rows in the order the query yields them. */
  predicate Lists(order: seq<AppId>, apps: Apps) {
    (forall a :: a in apps ==> a in order) && (forall a :: a in order ==> a in apps) && Distinct(order)
  }

  function JobOf(o: Sight, young: bool, a: AppId, r: App, promoted: bool): seq<Job> {
    var v := Examine(o, young, a, r);
    if v.Recover? && v.promoted == promoted then [Job(a, v.build)] else []
  }

  /** The synchronous list (`promoted`) or the background list of the loop. */
  function Jobs(o: Sight, young: set<AppId>, apps: Apps, order: seq<AppId>, promoted: bool): seq<Job>
    requires forall a :: a in order ==> a in apps
  {
    if order == [] then []
    else
      var a := order[|order| - 1];
      Jobs(o, young, apps, order[..|order| - 1], promoted) + JobOf(o, a in young, a, apps[a], promoted)
  }

  /** The rebuilds of `_recover_cache_corrupt_apps`, over the rows the loop left. */
  function Rebuilds(o: Sight, apps: Apps, order: seq<AppId>): seq<Job>
    requires forall a :: a in order ==> a in apps
  {
    if order == [] then []
    else
      var a := order[|order| - 1];
      Rebuilds(o, apps, order[..|order| - 1]) + (if Corrupt(o, a, apps[a]) then [Job(a, true)] else [])
  }

  /** The rows after the loop, before the corrupt ones are swept. */
  function Looped(o: Sight, young: set<AppId>, apps: Apps): Apps {
    map a | a in apps :: Examine(o, a in young, a, apps[a]).row
  }

  function Background(o: Sight, young: set<AppId>, apps: Apps, order: seq<AppId>): seq<Job>
    requires forall a :: a in order ==> a in apps
  {
    Jobs(o, young, apps, order, false) + Rebuilds(o, Looped(o, young, apps), order)
  }

  /** The rows once those of `order` have been given new values. */
  function Written(rows: Apps, order: seq<AppId>, value: AppId -> App): Apps {
    if order == [] then rows
    else Written(rows, order[..|order| - 1], value)[order[|order| - 1] := value(order[|order| - 1])]
  }

  lemma {:induction false} WrittenRows(rows: Apps, order: seq<AppId>, value: AppId -> App)
    requires forall a :: a in order ==> a in rows
    ensures Written(rows, order, value).Keys == rows.Keys
    ensures forall a :: a in rows ==> Written(rows, order, value)[a] == if a in order then value(a) else rows[a]
  {
    if order != [] {
      var n := |order| - 1;
      assert order == order[..n] + [order[n]];
      WrittenRows(rows, order[..n], value);
    }
  }

  /** The next row has not been written yet. */
  lemma NextRow(rows: Apps, order: seq<AppId>, i: nat, value: AppId -> App)
    requires Lists(order, rows) && i < |order|
    ensures var before := Written(rows, order[..i], value);
            && order[i] in before && before[order[i]] == rows[order[i]]
            && Written(rows, order[..i + 1], value) == before[order[i] := value(order[i])]
  {
    assert order[..i + 1][..i] == order[..i];
    WrittenRows(rows, order[..i], value);
  }

  lemma AllRows(rows: Apps, order: seq<AppId>, value: AppId -> App)
    requires Lists(order, rows)
    ensures Written(rows, order[..|order|], value) == map a | a in rows :: value(a)
  {
    assert order[..|order|] == order;
    WrittenRows(rows, order, value);
  }

  lemma NextJob(o: Sight, young: set<AppId>, apps: Apps, order: seq<AppId>, i: nat, promoted: bool)
    requires Lists(order, apps) && i < |order|
    ensures Jobs(o, young, apps, order[..i + 1], promoted)
         == Jobs(o, young, apps, order[..i], promoted) + JobOf(o, order[i] in young, order[i], apps[order[i]], promoted)
  {
    assert order[..i + 1][..i] == order[..i];
  }

  lemma NextRebuild(o: Sight, apps: Apps, order: seq<AppId>, i: nat)
    requires Lists(order, apps) && i < |order|
    ensures Rebuilds(o, apps, order[..i + 1])
         == Rebuilds(o, apps, order[..i]) + if Corrupt(o, order[i], apps[order[i]]) then [Job(order[i], true)] else []
  {
    assert order[..i + 1][..i] == order[..i];
  }

  function Examined(o: Sight, young: set<AppId>, rows: Apps): AppId -> App {
    a => if a in rows then Examine(o, a in young, a, rows[a]).row else App("", Error, NoMessage, None, false)
  }

  function SweptOf(o: Sight, rows: Apps): AppId -> App {
    a => if a in rows then Swept(o, a, rows[a]) else App("", Error, NoMessage, None, false)
  }

  class AppTable {
    var apps: Apps

    constructor (apps: Apps)
      ensures this.apps == apps
    {
      this.apps := apps;
    }

    /** One turn of the loop; `r` is the row as it was when the query ran. */
    method SweepRow(o: Sight, young: bool, a: AppId, r: App) returns (queued: bool, promoted: bool, build: bool)
      requires a in apps && apps[a] == r
      modifies this
      ensures apps == old(apps)[a := Examine(o, young, a, r).row]
      ensures JobOf(o, young, a, r, true) == if queued && promoted then [Job(a, build)] else []
      ensures JobOf(o, young, a, r, false) == if queued && !promoted then [Job(a, build)] else []
    {
      queued, promoted, build := false, false, false;
      if r.status != Running && r.status != Starting && r.status != Building { return; }
      var live := r.container.Some? && r.container.value in o.running;
      promoted := r.status == Starting && r.message == RestartMarker;
      if !promoted && r.status == Starting && young { return; }
      if live && r.status != Starting {
        apps := apps[a := r.(status := Running)];
        return;
      }
      build := r.status == Building || !o.image(a);
      if !(r.hasManifest || o.repo(a)) || (build && !o.repo(a)) {
        apps := apps[a := r.(status := Error, message := if o.oddPath(a) then CacheCorrupt else OtherText)];
        return;
      }
      apps := apps[a := r.(status := Starting)];
      queued := !(r.container == None && !promoted && young);
    }

    method SweepRows(o: Sight, young: set<AppId>, order: seq<AppId>) returns (promotedJobs: seq<Job>, jobs: seq<Job>)
      requires Lists(order, apps)
      modifies this
      ensures apps == Looped(o, young, old(apps))
      ensures promotedJobs == Jobs(o, young, old(apps), order, true)
      ensures jobs == Jobs(o, young, old(apps), order, false)
    {
      var rows := apps;
      promotedJobs, jobs := [], [];
      for i := 0 to |order|
        invariant apps == Written(rows, order[..i], Examined(o, young, rows))
        invariant promotedJobs == Jobs(o, young, rows, order[..i], true)
        invariant jobs == Jobs(o, young, rows, order[..i], false)
      {
        var a := order[i];
        NextRow(rows, order, i, Examined(o, young, rows));
        NextJob(o, young, rows, order, i, true);
        NextJob(o, young, rows, order, i, false);
        var queued, promoted, build := SweepRow(o, a in young, a, rows[a]);
        if queued && promoted {
          promotedJobs := promotedJobs + [Job(a, build)];
        } else if queued {
          jobs := jobs + [Job(a, build)];
        }
      }
      assert order[..|order|] == order;
      AllRows(rows, order, Examined(o, young, rows));
    }

    method RecoverCacheCorruptApps(o: Sight, order: seq<AppId>) returns (jobs: seq<Job>)
      requires Lists(order, apps)
      modifies this
      ensures jobs == Rebuilds(o, old(apps), order)
      ensures apps == map a | a in old(apps) :: Swept(o, a, old(apps)[a])
    {
      var rows := apps;
      jobs := [];
      for i := 0 to |order|
        invariant apps == Written(rows, order[..i], SweptOf(o, rows))
        invariant jobs == Rebuilds(o, rows, order[..i])
      {
        var a := order[i];
        NextRow(rows, order, i, SweptOf(o, rows));
        NextRebuild(o, rows, order, i);
        if Corrupt(o, a, rows[a]) {
          apps := apps[a := rows[a].(status := Starting, message := NoMessage)];
          jobs := jobs + [Job(a, true)];
        } else {
          assert apps[a := rows[a]] == apps;
        }
      }
      assert order[..|order|] == order;
      AllRows(rows, order, SweptOf(o, rows));
    }

    method CheckAppStatus(o: Sight, young: set<AppId>, order: seq<AppId>) returns (promotedJobs: seq<Job>,
                          jobs: seq<Job>)
      requires Lists(order, apps)
      modifies this
      ensures apps == BootAll(o, young, old(apps))
      ensures promotedJobs == Jobs(o, young, old(apps), order, true)
      ensures jobs == Background(o, young, old(apps), order)
    {
      promotedJobs, jobs := SweepRows(o, young, order);
      var rebuilds := RecoverCacheCorruptApps(o, order);
      jobs := jobs + rebuilds;
    }
  }

  // ---- who is on the lists -----------------------------------------------------------------------

  function Times(a: AppId, jobs: seq<Job>): nat {
    if jobs == [] then 0 else (if jobs[0].app == a then 1 else 0) + Times(a, jobs[1..])
  }

  lemma {:induction false} TimesConcat(a: AppId, x: seq<Job>, y: seq<Job>)
    ensures Times(a, x + y) == Times(a, x) + Times(a, y)
  {
    if x == [] {
      assert x + y == y;
    } else {
      assert (x + y)[1..] == x[1..] + y;
      TimesConcat(a, x[1..], y);
    }
  }

  /** A row's jobs name its own app. */
  lemma TimesOfAnotherRow(o: Sight, young: bool, b: AppId, r: App, promoted: bool, a: AppId)
    requires a != b
    ensures Times(a, JobOf(o, young, b, r, promoted)) == 0
  {
  }

  lemma {:induction false} TimesInJobs(o: Sight, young: set<AppId>, apps: Apps, order: seq<AppId>, promoted: bool,
                                       a: AppId)
    requires (forall b :: b in order ==> b in apps) && Distinct(order) && a in apps
    ensures Times(a, Jobs(o, young, apps, order, promoted))
         == if a in order then Times(a, JobOf(o, a in young, a, apps[a], promoted)) else 0
  {
    if order != [] {
      var n, b := |order| - 1, order[|order| - 1];
      DistinctPrefix(order, n);
      assert order == order[..n] + [b];
      TimesInJobs(o, young, apps, order[..n], promoted, a);
      TimesConcat(a, Jobs(o, young, apps, order[..n], promoted), JobOf(o, b in young, b, apps[b], promoted));
      if a != b {
        TimesOfAnotherRow(o, b in young, b, apps[b], promoted, a);
      }
    }
  }

  lemma {:induction false} TimesInRebuilds(o: Sight, apps: Apps, order: seq<AppId>, a: AppId)
    requires (forall b :: b in order ==> b in apps) && Distinct(order) && a in apps
    ensures Times(a, Rebuilds(o, apps, order)) == if a in order && Corrupt(o, a, apps[a]) then 1 else 0
  {
    if order != [] {
      var n := |order| - 1;
      DistinctPrefix(order, n);
      TimesInRebuilds(o, apps, order[..n], a);
      var last := if Corrupt(o, order[n], apps[order[n]]) then [Job(order[n], true)] else [];
      TimesConcat(a, Rebuilds(o, apps, order[..n]), last);
      assert order == order[..n] + [order[n]];
      assert a in order <==> a in order[..n] || a == order[n];
    }
  }

  /** How often one app is on either list depends on its own row alone. */
  lemma TimesOnTheLists(o: Sight, young: set<AppId>, apps: Apps, order: seq<AppId>, a: AppId)
    requires Lists(order, apps) && a in apps
    ensures Times(a, Jobs(o, young, apps, order, true)) == Times(a, JobOf(o, a in young, a, apps[a], true))
    ensures Times(a, Background(o, young, apps, order))
         == Times(a, JobOf(o, a in young, a, apps[a], false))
            + if Corrupt(o, a, Looped(o, young, apps)[a]) then 1 else 0
  {
    TimesInJobs(o, young, apps, order, true, a);
    TimesInJobs(o, young, apps, order, false, a);
    TimesInRebuilds(o, Looped(o, young, apps), order, a);
    TimesConcat(a, Jobs(o, young, apps, order, false), Rebuilds(o, Looped(o, young, apps), order));
  }

  /** The app can be started again: from its checkout if it must be built, else from its manifest or
      its checkout. */
  predicate Restartable(o: Sight, a: AppId, r: App) {
    if r.status == Building || !o.image(a) then o.repo(a) else r.hasManifest || o.repo(a)
  }

  /** It should be up, and is not, or is only half-way up. */
  predicate WantsRestart(o: Sight, r: App) {
    || r.status == Starting
    || (r.status in {Running, Building} && !(r.container.Some? && r.container.value in o.running))
  }

  /** This very process is launching it. */
  predicate OwnLaunch(young: bool, r: App) { young && !Marked(r) && (r.status == Starting || r.container == None) }

  /** Which apps the loop queues, on which list, and with what job: one that wants a restart, can be
      given one, and is not being launched by this process; on the synchronous list if a promotion
      marked it; and it is built exactly if it was building or has no image. */
  lemma QueuedExactlyWhen(o: Sight, young: bool, a: AppId, r: App, promoted: bool)
    ensures JobOf(o, young, a, r, promoted) ==
            if WantsRestart(o, r) && Restartable(o, a, r) && !OwnLaunch(young, r) && (promoted <==> Marked(r))
            then [Job(a, r.status == Building || !o.image(a))] else []
  {
  }

  /** An app ends the loop in an error exactly if it was in one, or wants a restart that this process
      is not making already and cannot be given one. */
  lemma ErrorExactlyWhen(o: Sight, young: bool, a: AppId, r: App)
    ensures Examine(o, young, a, r).row.status == Error <==>
            || r.status == Error
            || (WantsRestart(o, r) && !Restartable(o, a, r) && !(young && !Marked(r) && r.status == Starting))
  {
  }

  /** A sweep clears exactly the apps whose build failed on the corrupt cache and that have a checkout:
      they are starting, without a message, so that no later sweep takes them up for the same failure. */
  lemma SweptExactlyWhen(o: Sight, a: AppId, r: App)
    ensures var swept := r.status == Error && r.message == CacheCorrupt && o.repo(a);
            && (swept <==> Swept(o, a, r) != r) && !Corrupt(o, a, Swept(o, a, r))
            && (swept ==> Swept(o, a, r) == App(r.name, Starting, NoMessage, r.container, r.hasManifest))
  {
  }

  /** Every job on either list is of an app there is, and builds exactly if that was building or has
      no image; those of the sweep always build. */
  lemma {:induction false} JobsBuildExactlyWhen(o: Sight, young: set<AppId>, apps: Apps, order: seq<AppId>,
                                                promoted: bool, j: Job)
    requires (forall b :: b in order ==> b in apps) && j in Jobs(o, young, apps, order, promoted)
    ensures j.app in apps && (j.build <==> apps[j.app].status == Building || !o.image(j.app))
  {
    var n, b := |order| - 1, order[|order| - 1];
    if j in JobOf(o, b in young, b, apps[b], promoted) {
      QueuedExactlyWhen(o, b in young, b, apps[b], promoted);
    } else {
      JobsBuildExactlyWhen(o, young, apps, order[..n], promoted, j);
    }
  }

  /** An app the promotion marked is, at every boot, queued exactly once, on the synchronous list,
      and keeps its marker; or an error is recorded for it. */
  lemma BootQueuesTheMarkedOnce(o: Sight, young: set<AppId>, apps: Apps, order: seq<AppId>, a: AppId)
    requires Lists(order, apps) && a in apps && Marked(apps[a])
    ensures var queued, after := Times(a, Jobs(o, young, apps, order, true)), BootAll(o, young, apps)[a];
            && Times(a, Background(o, young, apps, order)) == 0
            && ((queued == 1 && Marked(after)) || (queued == 0 && after.status == Error))
  {
    TimesOnTheLists(o, young, apps, order, a);
  }

  /** No boot queues an app twice. */
  lemma NobodyIsQueuedTwice(o: Sight, young: set<AppId>, apps: Apps, order: seq<AppId>, a: AppId)
    requires Lists(order, apps) && a in apps
    ensures Times(a, Jobs(o, young, apps, order, true)) + Times(a, Background(o, young, apps, order)) <= 1
  {
    TimesOnTheLists(o, young, apps, order, a);
    RowIsQueuedOnce(o, a in young, a, apps[a]);
  }

  lemma RowIsQueuedOnce(o: Sight, young: bool, a: AppId, r: App)
    ensures Times(a, JobOf(o, young, a, r, true)) + Times(a, JobOf(o, young, a, r, false))
            + (if Corrupt(o, a, Examine(o, young, a, r).row) then 1 else 0) <= 1
  {
  }

  lemma RowIsNotStranded(o: Sight, young: bool, a: AppId, r: App)
    ensures var r' := Booted(o, young, a, r);
            && (r'.status == Building || r'.status == Starting ==>
                  young || Times(a, JobOf(o, young, a, r, true)) + Times(a, JobOf(o, young, a, r, false))
                           + (if Corrupt(o, a, Examine(o, young, a, r).row) then 1 else 0) == 1)
            && (r'.status == Running ==> r'.container.Some? && r'.container.value in o.running)
  {
  }

  /** Boot strands nobody: whatever it leaves building or starting is queued, unless this very
      process has just inserted it; and whatever it leaves running has a live container. */
  lemma NobodyIsStranded(o: Sight, young: set<AppId>, apps: Apps, order: seq<AppId>, a: AppId)
    requires Lists(order, apps) && a in apps
    ensures var after := BootAll(o, young, apps)[a];
            && (Underway(after) ==>
                  a in young
                  || Times(a, Jobs(o, young, apps, order, true)) + Times(a, Background(o, young, apps, order)) == 1)
            && (after.status == Running ==> after.container.Some? && after.container.value in o.running)
  {
    TimesOnTheLists(o, young, apps, order, a);
    RowIsNotStranded(o, a in young, a, apps[a]);
  }
}
