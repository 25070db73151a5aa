/**
 Why a migration loses nothing: whichever step raises, rollback steps included, the store the
 volume points at holds every object its metadata needs.
 */
module ArchiveSafety {
  import opened AppStatus
  import opened ArchiveQuiesce
  import opened Options
  import opened ArchiveWorld
  import opened ArchiveMigration

  /** Source, destination and prefix of one migration. */
  datatype Plan = Plan(src: Place, dst: Place, volume: string)

  function At(w: World, place: Place, volume: string): set<Obj> { Objects(w.stores, Slot(place, volume)) }

  /** Every object the metadata needs is where the volume points. */
  predicate NothingLost(w: World) {
    w.formatted ==> w.needed <= At(w, w.pointsAt, w.prefix)
  }

  /** Some archive app writes, or may come to write, during the call. */
  predicate MayWrite(w: World) {
    exists r :: r in w.apps && (Writes(w.live, r) || ComesUp(r))
  }

  /** A launch may bring its container up. */
  predicate ComesUp(r: App) { r.usesArchive && InLaunch(r.status) }

  /** The source always has everything; the destination has it before the volume points there;
      and while apps may write, the volume only ever talks to the source. */
  predicate Sound(w: World, p: Plan) {
    && (w.formatted ==> w.prefix == p.volume && (w.pointsAt == p.src || w.pointsAt == p.dst))
    && (!w.formatted ==> w.needed == {} && w.mounted == None)
    && w.needed <= At(w, p.src, p.volume)
    && (w.pointsAt == p.dst ==> w.needed <= At(w, p.dst, p.volume))
    && (w.mounted.Some? ==> w.mounted.value == p.src || w.mounted.value == p.dst)
    && (MayWrite(w) && w.mounted.Some? ==> w.mounted.value == p.src)
    && (MayWrite(w) && w.formatted ==> w.pointsAt == p.src)
  }

  predicate InPlan(s: Slot, p: Plan) { s == Slot(p.src, p.volume) || s == Slot(p.dst, p.volume) }

  /** What every step before the reclaim keeps: no slot shrinks, and none outside the plan changes. */
  ghost predicate Keeps(w: World, w': World, p: Plan) {
    && (forall s :: Objects(w.stores, s) <= Objects(w'.stores, s))
    && (forall s :: !InPlan(s, p) ==> Objects(w'.stores, s) == Objects(w.stores, s))
    && w'.apps == w.apps && (!MayWrite(w) ==> !MayWrite(w') && w'.needed == w.needed)
  }

  ghost predicate Goes(w: World, w': World, p: Plan) {
    Sound(w', p) && Keeps(w, w', p)
  }

  /** A container that comes up belongs to the launch of an archive app. */
  lemma ArrivalsAreExpected(w: World, e: Env)
    ensures forall c :: c in Arrived(w, e) ==>
              c in w.live || exists r :: r in w.apps && ComesUp(r) && r.next == c
  {
    forall c | c in Arrived(w, e) && c !in w.live
      ensures exists r :: r in w.apps && ComesUp(r) && r.next == c {
      assert c in Coming(w.apps);
    }
  }

  /** Whoever writes after an arrival could be expected to. */
  lemma ArrivalsChangeNothing(w: World, e: Env, up: set<Cid>)
    ensures WriterLeft(Arrived(w, e) * up, w.apps) ==> MayWrite(w)
    ensures MayWrite(w.(live := Arrived(w, e))) <==> MayWrite(w)
  {
    var live := Arrived(w, e);
    forall r | r in w.apps && Writes(live, r) ensures MayWrite(w) {
      ArrivalsAreExpected(w, e);
      if Names(live, r) && r.container.value !in w.live {
        var q :| q in w.apps && ComesUp(q) && q.next == r.container.value;
      } else if Names(live, r) {
        assert Writes(w.live, r);
      } else {
        assert ComesUp(r);
      }
    }
    forall r | r in w.apps && Writes(live * up, r) ensures Writes(live, r) {
    }
    forall r | r in w.apps && Writes(w.live, r) ensures Writes(live, r) {
    }
  }

  lemma TickGoes(w: World, e: Env, p: Plan)
    requires Sound(w, p)
    ensures Goes(w, Tick(w, e), p) && (MayWrite(Tick(w, e)) <==> MayWrite(w))
  {
    ArrivalsChangeNothing(w, e, e.up(w.clock));
    var v := Tick(w, e);
    assert MayWrite(v) <==> MayWrite(w.(live := Arrived(w, e)));
  }

  lemma InstallGoes(w: World, e: Env, p: Plan)
    requires Sound(w, p)
    ensures Goes(w, AfterInstall(w, e).world, p)
  {
    TickGoes(w, e, p);
  }

  lemma FormatGoes(w: World, e: Env, p: Plan)
    requires Sound(w, p)
    ensures Goes(w, AfterFormat(w, e, p.src, p.volume).world, p)
  {
    TickGoes(w, e, p);
  }

  lemma MountGoes(w: World, e: Env, p: Plan)
    requires Sound(w, p)
    ensures Goes(w, AfterMount(w, e).world, p)
  {
    TickGoes(w, e, p);
  }

  lemma UmountGoes(w: World, e: Env, p: Plan)
    requires Sound(w, p)
    ensures Goes(w, AfterUmount(w, e).world, p)
  {
    TickGoes(w, e, p);
  }

  lemma QuiesceGoes(w: World, e: Env, p: Plan)
    requires Sound(w, p)
    ensures Goes(w, AfterQuiesce(w, e).world, p)
  {
    TickGoes(w, e, p);
    var v := Tick(w, e);
    StoppingSilences(v, e.podman);
  }

  lemma StoppingSilences(w: World, podman: Podman)
    ensures MayWrite(w.(live := Left(w.live, w.apps, podman))) ==> MayWrite(w)
  {
    LeftShrinks(w.live, w.apps, podman);
    var v := w.(live := Left(w.live, w.apps, podman));
    forall r | r in w.apps && Writes(v.live, r) ensures Writes(w.live, r) {
    }
  }

  lemma SyncGoes(w: World, e: Env, p: Plan)
    requires Sound(w, p)
    ensures Goes(w, AfterSync(w, e, Slot(p.src, p.volume), Slot(p.dst, p.volume)).world, p)
    ensures var o := AfterSync(w, e, Slot(p.src, p.volume), Slot(p.dst, p.volume));
            o.ok ==> o.world.needed <= At(o.world, p.dst, p.volume)
                     && At(w, p.src, p.volume) <= At(o.world, p.dst, p.volume)
  {
    TickGoes(w, e, p);
  }

  lemma RepointGoes(w: World, e: Env, p: Plan, place: Place)
    requires Sound(w, p)
    requires place == p.src || (place == p.dst && !MayWrite(w) && w.needed <= At(w, p.dst, p.volume))
    ensures Goes(w, AfterRepoint(w, e, place).world, p)
  {
    TickGoes(w, e, p);
  }

  lemma UpdateGoes(w: World, e: Env, p: Plan, row: Row)
    requires Sound(w, p)
    ensures Goes(w, AfterUpdate(w, e, row).world, p)
  {
    TickGoes(w, e, p);
  }

  lemma CommitGoes(w: World, e: Env, p: Plan)
    requires Sound(w, p)
    ensures Goes(w, AfterCommit(w, e).world, p)
  {
    TickGoes(w, e, p);
  }

  lemma GoesOn(w: World, w': World, w'': World, p: Plan)
    requires Goes(w, w', p) && Goes(w', w'', p)
    ensures Goes(w, w'', p)
  {
  }

  /** Steps that are harmless whenever they come, to a volume that may be formatted already. */
  predicate Tame(a: Action, p: Plan, formatted: bool) {
    match a
    case Format(place, name) => place == p.src && name == p.volume
    case EnsureFormatted(name) => formatted || (p.src == LocalDisk && name == p.volume)
    case Sync(from, to) => from == Slot(p.src, p.volume) && to == Slot(p.dst, p.volume)
    case Repoint(place) => place == p.src
    case _ => true
  }

  lemma TameStepGoes(w: World, e: Env, p: Plan, a: Action)
    requires Sound(w, p) && Tame(a, p, w.formatted)
    ensures Goes(w, Do(w, e, a).world, p)
  {
    match a
    case Install => InstallGoes(w, e, p);
    case Format(_, _) => FormatGoes(w, e, p);
    case EnsureFormatted(_) => if !w.formatted { FormatGoes(w, e, p); }
    case Mount => MountGoes(w, e, p);
    case Umount => UmountGoes(w, e, p);
    case Quiesce => QuiesceGoes(w, e, p);
    case Sync(_, _) => SyncGoes(w, e, p);
    case Repoint(_) => RepointGoes(w, e, p, p.src);
    case Update(row) => UpdateGoes(w, e, p, row);
    case Commit => CommitGoes(w, e, p);
  }

  predicate AllTame(script: Script, p: Plan, formatted: bool) { forall a :: a in script ==> Tame(a, p, formatted) }

  /** A volume once formatted stays so. */
  lemma StepStaysFormatted(w: World, e: Env, a: Action)
    requires w.formatted
    ensures Do(w, e, a).world.formatted && Do(w, e, a).world.prefix == w.prefix
  {
  }

  lemma StillTame(script: Script, p: Plan, formatted: bool, later: bool)
    requires script != [] && AllTame(script, p, formatted) && (formatted ==> later)
    ensures AllTame(script[1..], p, later)
  {
    forall a | a in script[1..] ensures Tame(a, p, later) {
      assert a in script && Tame(a, p, formatted);
    }
  }

  /** Any script of such steps, wherever it breaks off: rollbacks are of this kind. */
  lemma {:induction false} TameScriptGoes(w: World, e: Env, p: Plan, script: Script)
    requires Sound(w, p) && AllTame(script, p, w.formatted)
    ensures Goes(w, Exec(w, e, script).world, p)
    decreases |script|
  {
    if script != [] {
      assert script[0] in script;
      TameStepGoes(w, e, p, script[0]);
      var o := Do(w, e, script[0]);
      if o.ok {
        if w.formatted { StepStaysFormatted(w, e, script[0]); }
        StillTame(script, p, w.formatted, o.world.formatted);
        TameScriptGoes(o.world, e, p, script[1..]);
        GoesOn(w, o.world, Exec(o.world, e, script[1..]).world, p);
      }
    }
  }

  /** No archive app is being launched, and the callback, if one is given, will stop every one that
      has a container. */
  predicate Hushed(w: World, podman: Podman, quiesce: bool) {
    forall r :: r in w.apps && r.usesArchive ==>
      !InLaunch(r.status) && (Names(w.live, r) ==> quiesce && Stoppable(r, podman))
  }

  predicate OnlyArrivals(w: World, e: Env, w': World) { w'.apps == w.apps && w'.live <= Arrived(w, e) }

  lemma StorageStepsAdmitOnlyArrivals(w: World, e: Env, a: Action)
    requires a.Install? || a.Format? || a.EnsureFormatted? || a.Mount? || a.Umount?
    ensures OnlyArrivals(w, e, Do(w, e, a).world)
  {
  }

  lemma QuiesceAdmitsOnlyArrivals(w: World, e: Env)
    ensures OnlyArrivals(w, e, AfterQuiesce(w, e).world)
  {
    LeftShrinks(Arrived(w, e), w.apps, e.podman);
  }

  /** No step lets more containers up than the launches in flight. */
  lemma StepAdmitsOnlyArrivals(w: World, e: Env, a: Action)
    ensures OnlyArrivals(w, e, Do(w, e, a).world)
  {
    match a
    case Quiesce => QuiesceAdmitsOnlyArrivals(w, e);
    case Sync(_, _) =>
    case Repoint(_) =>
    case Update(_) =>
    case Commit =>
    case _ => StorageStepsAdmitOnlyArrivals(w, e, a);
  }

  lemma HushedStays(w: World, e: Env, a: Action, quiesce: bool)
    requires Hushed(w, e.podman, quiesce)
    ensures Hushed(Do(w, e, a).world, e.podman, quiesce)
  {
    StepAdmitsOnlyArrivals(w, e, a);
    ArrivalsAreExpected(w, e);
    var v := Do(w, e, a).world;
    forall r | r in v.apps && r.usesArchive && Names(v.live, r) ensures Names(w.live, r) {
    }
  }

  lemma QuiesceHushes(w: World, e: Env)
    requires Hushed(w, e.podman, true) && DistinctContainers(w.apps) && AfterQuiesce(w, e).ok
    ensures Hushed(AfterQuiesce(w, e).world, e.podman, false)
  {
    var live := Arrived(w, e);
    ArrivalsAreExpected(w, e);
    forall r | r in w.apps && Writes(live, r) ensures Stoppable(r, e.podman) {
    }
    QuiescedExactlyWhen(live, w.apps, e.podman);
    forall r | r in w.apps && r.usesArchive ensures !Names(AfterQuiesce(w, e).world.live, r) {
      assert !Writes(Left(live, w.apps, e.podman), r);
    }
  }

  lemma HushedMeansQuiet(w: World, podman: Podman)
    requires Hushed(w, podman, false)
    ensures !MayWrite(w)
  {
  }

  /** A script that quiesces, and gets through, leaves nobody writing. */
  lemma {:induction false} QuiescedAfter(w: World, e: Env, script: Script)
    requires Hushed(w, e.podman, Quiesce in script) && DistinctContainers(w.apps)
    requires Exec(w, e, script).ok
    ensures !MayWrite(Exec(w, e, script).world)
    decreases |script|
  {
    if script == [] {
      HushedMeansQuiet(w, e.podman);
    } else {
      var o := Do(w, e, script[0]);
      StepAdmitsOnlyArrivals(w, e, script[0]);
      if script[0] == Quiesce {
        QuiesceHushes(w, e);
        MoreHushed(o.world, e.podman, Quiesce in script[1..]);
      } else {
        assert Quiesce in script ==> Quiesce in script[1..];
        HushedStays(w, e, script[0], Quiesce in script);
      }
      QuiescedAfter(o.world, e, script[1..]);
    }
  }

  lemma MoreHushed(w: World, podman: Podman, quiesce: bool)
    requires Hushed(w, podman, false)
    ensures Hushed(w, podman, quiesce)
  {
  }

  /** While nobody writes, a copy that gets through makes the destination complete, and only then
      does the volume point there. */
  lemma CopyGoes(w: World, e: Env, p: Plan)
    requires Sound(w, p) && !MayWrite(w)
    ensures var o := Exec(w, e, Copy(p.src, p.dst, p.volume));
            && Goes(w, o.world, p)
            && (o.ok ==> o.world.pointsAt == p.dst && At(w, p.src, p.volume) <= At(o.world, p.dst, p.volume))
  {
    CopySteps(w, e, p.src, p.dst, p.volume);
    SyncGoes(w, e, p);
    var o := AfterSync(w, e, Slot(p.src, p.volume), Slot(p.dst, p.volume));
    if o.ok {
      RepointGoes(o.world, e, p, p.dst);
      GoesOn(w, o.world, AfterRepoint(o.world, e, p.dst).world, p);
    }
  }

  /** A restart that gets through leaves the mount where the volume points, and the flip does not
      move it. */
  lemma SwitchMounts(w: World, e: Env, row: Row)
    ensures var o := Exec(w, e, Switch(row));
            o.ok ==> o.world.pointsAt == w.pointsAt && o.world.formatted && o.world.mounted == Some(w.pointsAt)
  {
    var rest := [Update(row), Commit];
    assert Switch(row) == [Umount] + ([Mount] + rest);
    Peel(w, e, Umount, [Mount] + rest);
    var u := Do(w, e, Umount);
    Peel(u.world, e, Mount, rest);
    var m := Do(u.world, e, Mount);
    PersistMovesNothing(m.world, e, row);
  }

  predicate SamePlace(w: World, w': World) {
    w'.pointsAt == w.pointsAt && w'.formatted == w.formatted && w'.mounted == w.mounted && w'.prefix == w.prefix
  }

  lemma PersistMovesNothing(w: World, e: Env, row: Row)
    ensures SamePlace(w, Exec(w, e, Persist(row)).world)
  {
    PersistSteps(w, e, row);
  }

  /** `o` went by the plan, and if it succeeded the volume talks to the destination, which has
      all that was at the source. */
  ghost predicate Arrives(w: World, o: Outcome, p: Plan) {
    && Goes(w, o.world, p)
    && (o.ok ==> o.world.formatted && o.world.pointsAt == p.dst && o.world.mounted == Some(p.dst))
    && (o.ok ==> At(w, p.src, p.volume) <= At(o.world, p.dst, p.volume))
  }

  lemma SwitchArrives(w: World, o: Outcome, e: Env, p: Plan, row: Row)
    requires Goes(w, o.world, p) && o.ok && o.world.pointsAt == p.dst
    requires At(w, p.src, p.volume) <= At(o.world, p.dst, p.volume)
    ensures Arrives(w, Exec(o.world, e, Switch(row)), p)
  {
    TameScriptGoes(o.world, e, p, Switch(row));
    SwitchMounts(o.world, e, row);
    GoesOn(w, o.world, Exec(o.world, e, Switch(row)).world, p);
  }

  /** Copy, restart, flip: begun while nobody writes, it arrives. */
  lemma CopyAndSwitchArrives(w: World, e: Env, p: Plan, row: Row)
    requires Sound(w, p) && !MayWrite(w)
    ensures Arrives(w, Exec(w, e, Copy(p.src, p.dst, p.volume) + Switch(row)), p)
  {
    var copy := Copy(p.src, p.dst, p.volume);
    ExecAppends(w, e, copy, Switch(row));
    CopyGoes(w, e, p);
    var o := Exec(w, e, copy);
    if o.ok {
      SwitchArrives(w, o, e, p, row);
    }
  }

  /** The whole migration: gather, then copy and switch. */
  lemma MigrationArrives(w: World, e: Env, p: Plan, gather: Script, row: Row)
    requires Sound(w, p) && AllTame(gather, p, w.formatted)
    requires Hushed(w, e.podman, Quiesce in gather) && DistinctContainers(w.apps)
    ensures Arrives(w, Exec(w, e, gather + (Copy(p.src, p.dst, p.volume) + Switch(row))), p)
  {
    var rest := Copy(p.src, p.dst, p.volume) + Switch(row);
    ExecAppends(w, e, gather, rest);
    TameScriptGoes(w, e, p, gather);
    var o := Exec(w, e, gather);
    if o.ok {
      QuiescedAfter(w, e, gather);
      CopyAndSwitchArrives(o.world, e, p, row);
      GoesOn(w, o.world, Exec(o.world, e, rest).world, p);
    }
  }

  lemma MountThenFlip(w: World, e: Env, row: Row)
    requires w.formatted && w.mounted == None
    ensures var o := Exec(w, e, [Mount] + Persist(row));
            o.ok ==> o.world.formatted && o.world.pointsAt == w.pointsAt && o.world.mounted == Some(w.pointsAt)
  {
    Peel(w, e, Mount, Persist(row));
    PersistMovesNothing(AfterMount(w, e).world, e, row);
  }

  lemma FreshMounts(w: World, e: Env, at: Place, name: string, row: Row)
    requires !w.formatted && w.mounted == None
    ensures var o := Exec(w, e, [Install] + ([Format(at, name)] + ([Mount] + Persist(row))));
            o.ok ==> o.world.formatted && o.world.pointsAt == at && o.world.mounted == Some(at)
  {
    Peel(w, e, Install, [Format(at, name)] + ([Mount] + Persist(row)));
    var a := AfterInstall(w, e).world;
    Peel(a, e, Format(at, name), [Mount] + Persist(row));
    var b := AfterFormat(a, e, at, name);
    if b.ok { MountThenFlip(b.world, e, row); }
  }

  /** A zone without a volume: the plan's source is its destination. */
  lemma FreshArrives(w: World, e: Env, p: Plan, row: Row)
    requires Sound(w, p) && p.src == p.dst && !w.formatted
    ensures Arrives(w, Exec(w, e, [Install, Format(p.dst, p.volume), Mount] + Persist(row)), p)
  {
    var script := [Install, Format(p.dst, p.volume), Mount] + Persist(row);
    TameScriptGoes(w, e, p, script);
    assert script == [Install] + ([Format(p.dst, p.volume)] + ([Mount] + Persist(row)));
    FreshMounts(w, e, p.dst, p.volume, row);
  }

  /** Every rollback, its own failures included. */
  lemma RollbackGoes(w: World, e: Env, p: Plan, backend: Backend)
    requires Sound(w, p)
    ensures Goes(w, AfterRollback(w, e, backend, p.src), p)
  {
    TameScriptGoes(w, e, p, Restore(backend, p.src));
    var o := Exec(w, e, Restore(backend, p.src));
    var message := Persist(Seen(o.world).(message := RESTART_NEEDED));
    TameScriptGoes(o.world, e, p, message);
    GoesOn(w, o.world, Exec(o.world, e, message).world, p);
  }
}
