/**
 The zone as the program changes it: each operation assigns fields step by step, and is proved
 to do what ArchiveWorld and ArchiveMigration say, so their theorems hold of it.
 */
module ArchiveZone {
  import opened AppStatus
  import opened ArchiveQuiesce
  import opened Options
  import opened ArchiveWorld
  import opened ArchiveMigration
  import opened ArchiveSafety
  import opened ArchiveTheorems
  import opened ArchiveRequest
  import opened ArchiveSuccess

  class Zone {
    var stores: Stores
    var formatted: bool
    var prefix: string
    var needed: set<Obj>
    var pointsAt: Place
    var mounted: Option<Place>
    var installed: bool
    var row: Row
    var pending: Option<Row>
    var apps: seq<App>
    var live: set<Cid>
    var recorded: seq<AppId>
    var clock: nat

    function View(): World
      reads this
    {
      World(stores, formatted, prefix, needed, pointsAt, mounted, installed, row, pending,
            apps, live, recorded, clock)
    }

    constructor (w: World)
      ensures View() == w
    {
      stores, formatted, prefix, needed := w.stores, w.formatted, w.prefix, w.needed;
      pointsAt, mounted, installed := w.pointsAt, w.mounted, w.installed;
      row, pending, apps, live := w.row, w.pending, w.apps, w.live;
      recorded, clock := w.recorded, w.clock;
    }

    /** Time passes for the apps; the fate of the step that follows is returned. */
    method Pass(e: Env) returns (fault: Fault)
      modifies this
      ensures View() == Tick(old(View()), e) && fault == e.faults(old(clock))
    {
      fault := e.faults(clock);
      live := live + (e.arrivals(clock) * Coming(apps));
      if WriterLeft(live * e.up(clock), apps) && mounted.Some? {
        var slot := Slot(mounted.value, prefix);
        stores := stores[slot := Objects(stores, slot) + e.traffic(clock)];
        needed := needed + e.traffic(clock);
      }
      clock := clock + 1;
    }

    method InstallJuicefs(e: Env) returns (ok: bool)
      modifies this
      ensures Outcome(View(), ok) == AfterInstall(old(View()), e)
    {
      if installed { return true; }
      var fault := Pass(e);
      if fault.Fine? || fault.applied { installed := true; }
      ok := fault.Fine?;
    }

    method Format(e: Env, place: Place, name: string) returns (ok: bool)
      modifies this
      ensures Outcome(View(), ok) == AfterFormat(old(View()), e, place, name)
    {
      var fault := Pass(e);
      if !formatted && (fault.Fine? || fault.applied) {
        formatted, prefix, pointsAt := true, name, place;
      }
      ok := fault.Fine?;
    }

    method EnsureLocalVolumeFormatted(e: Env, name: string) returns (ok: bool)
      modifies this
      ensures Outcome(View(), ok) == AfterEnsureFormatted(old(View()), e, name)
    {
      if formatted { return true; }
      ok := Format(e, LocalDisk, name);
    }

    method Mount(e: Env) returns (ok: bool)
      modifies this
      ensures Outcome(View(), ok) == AfterMount(old(View()), e)
    {
      if mounted.Some? { return true; }
      var fault := Pass(e);
      if !formatted { return false; }
      if fault.Fine? || fault.applied { mounted := Some(pointsAt); }
      ok := fault.Fine?;
    }

    method Umount(e: Env) returns (ok: bool)
      modifies this
      ensures Outcome(View(), ok) == AfterUmount(old(View()), e)
    {
      if mounted == None { return true; }
      var fault := Pass(e);
      if fault.Fine? || fault.applied { mounted := None; }
      ok := fault.Fine?;
    }

    /** Unmount, then mount; `rest` is what the caller goes on to do. */
    method Remount(e: Env, ghost rest: Script) returns (ok: bool)
      modifies this
      ensures ok ==> Exec(old(View()), e, [Action.Umount, Action.Mount] + rest) == Exec(View(), e, rest)
      ensures !ok ==> Exec(old(View()), e, [Action.Umount, Action.Mount] + rest) == Outcome(View(), false)
    {
      assert [Action.Umount, Action.Mount] + rest == [Action.Umount] + ([Action.Mount] + rest);
      Peel(View(), e, Action.Umount, [Action.Mount] + rest);
      ok := Umount(e);
      if ok {
        Peel(View(), e, Action.Mount, rest);
        ok := Mount(e);
      }
    }

    /** The callback, run over the app table; what it raises for is an app it still sees running. */
    method QuiesceArchiveApps(e: Env) returns (ok: bool)
      requires DistinctContainers(apps)
      modifies this
      ensures Outcome(View(), ok) == AfterQuiesce(old(View()), e)
    {
      var up := e.up(clock);
      var fault := Pass(e);
      if fault.Fine? || fault.applied {
        ok, recorded, live := StopRunningArchiveApps(live, up, apps, e.podman);
      }
      if !fault.Fine? { ok := false; }
    }

    method SyncObjects(e: Env, from: Slot, to: Slot) returns (ok: bool)
      modifies this
      ensures Outcome(View(), ok) == AfterSync(old(View()), e, from, to)
    {
      var fault := Pass(e);
      stores := stores[to := Objects(stores, to) + Brought(stores, from, fault)];
      ok := fault.Fine?;
    }

    method ReconfigureVolumeStorage(e: Env, place: Place) returns (ok: bool)
      modifies this
      ensures Outcome(View(), ok) == AfterRepoint(old(View()), e, place)
    {
      var fault := Pass(e);
      if !formatted { return false; }
      if fault.Fine? || fault.applied { pointsAt := place; }
      ok := fault.Fine?;
    }

    /** `_migrate_local_to_s3` and `_migrate_s3_to_s3`. */
    method CopyAndRepoint(e: Env, src: Place, dst: Place, volume: string) returns (ok: bool)
      modifies this
      ensures Outcome(View(), ok) == Exec(old(View()), e, Copy(src, dst, volume))
    {
      ghost var copy := Action.Sync(Slot(src, volume), Slot(dst, volume));
      assert Copy(src, dst, volume) == [copy] + ([Repoint(dst)] + []);
      Peel(View(), e, copy, [Repoint(dst)] + []);
      ok := SyncObjects(e, Slot(src, volume), Slot(dst, volume));
      if ok {
        Peel(View(), e, Repoint(dst), []);
        ok := ReconfigureVolumeStorage(e, dst);
      }
    }

    method InstallAndFormat(e: Env, volume: string, local: bool, ghost rest: Script) returns (ok: bool)
      modifies this
      ensures var script := [Install] + ((if local then [EnsureFormatted(volume)] else []) + rest);
              Exec(old(View()), e, script) == if ok then Exec(View(), e, rest) else Outcome(View(), false)
      ensures apps == old(apps)
    {
      ghost var middle := if local then [EnsureFormatted(volume)] else [];
      Peel(View(), e, Install, middle + rest);
      ok := InstallJuicefs(e);
      if ok && local {
        Peel(View(), e, EnsureFormatted(volume), rest);
        ok := EnsureLocalVolumeFormatted(e, volume);
      }
      assert [] + rest == rest;
    }

    method MountAndQuiesce(e: Env, quiesce: bool) returns (ok: bool)
      requires DistinctContainers(apps)
      modifies this
      ensures Outcome(View(), ok) == Exec(old(View()), e, [Action.Mount] + if quiesce then [Action.Quiesce] else [])
    {
      Peel(View(), e, Action.Mount, if quiesce then [Action.Quiesce] else []);
      ok := Mount(e);
      if ok && quiesce {
        assert [Action.Quiesce] == [Action.Quiesce] + [];
        Peel(View(), e, Action.Quiesce, []);
        ok := QuiesceArchiveApps(e);
      }
    }

    /** A complete source that nobody writes to. */
    method GatherSource(e: Env, volume: string, quiesce: bool) returns (ok: bool)
      requires DistinctContainers(apps)
      modifies this
      ensures Outcome(View(), ok) == Exec(old(View()), e, Gather(old(row), volume, quiesce))
    {
      ghost var tail := if quiesce then [Action.Quiesce] else [];
      ghost var middle := if row.backend == Local then [EnsureFormatted(volume)] else [];
      assert Gather(row, volume, quiesce) == [Install] + (middle + ([Action.Mount] + tail));
      ok := InstallAndFormat(e, volume, row.backend == Local, [Action.Mount] + tail);
      if ok { ok := MountAndQuiesce(e, quiesce); }
    }

    method ExecuteUpdate(e: Env, newRow: Row) returns (ok: bool)
      modifies this
      ensures Outcome(View(), ok) == AfterUpdate(old(View()), e, newRow)
    {
      var fault := Pass(e);
      ok := fault.Fine?;
      if ok { pending := Some(newRow); }
    }

    method CommitTransaction(e: Env) returns (ok: bool)
      modifies this
      ensures Outcome(View(), ok) == AfterCommit(old(View()), e)
    {
      var fault := Pass(e);
      ok := fault.Fine?;
      if ok && pending.Some? { row, pending := pending.value, None; }
    }

    method PersistRow(e: Env, newRow: Row) returns (ok: bool)
      modifies this
      ensures Outcome(View(), ok) == Exec(old(View()), e, Persist(newRow))
    {
      assert Persist(newRow) == [Update(newRow)] + ([Commit] + []);
      Peel(View(), e, Update(newRow), [Commit] + []);
      ok := ExecuteUpdate(e, newRow);
      if ok {
        Peel(View(), e, Commit, []);
        ok := CommitTransaction(e);
      }
    }

    method SwitchOver(e: Env, newRow: Row) returns (ok: bool)
      modifies this
      ensures Outcome(View(), ok) == Exec(old(View()), e, Switch(newRow))
    {
      ok := Remount(e, Persist(newRow));
      if ok { ok := PersistRow(e, newRow); }
    }

    /** The `try` block for a zone that has a volume. */
    method MigrateVolume(e: Env, t: Target, quiesce: bool) returns (ok: bool)
      requires (row.backend == Local || row.backend == S3) && DistinctContainers(apps)
      modifies this
      ensures Outcome(View(), ok) == Exec(old(View()), e, Attempt(old(row), e, t, quiesce))
    {
      var was, volume := row, ChooseVolume(row, t);
      var src, dst, newRow := Source(was, e), Destination(t, e), Flipped(was, t, volume);
      ExecAppends(View(), e, Gather(was, volume, quiesce), Copy(src, dst, volume) + Switch(newRow));
      ok := GatherSource(e, volume, quiesce);
      if !ok { return; }
      ExecAppends(View(), e, Copy(src, dst, volume), Switch(newRow));
      ok := CopyAndRepoint(e, src, dst, volume);
      if !ok { return; }
      ok := SwitchOver(e, newRow);
    }

    /** The `try` block for a zone that never had a volume. */
    method FormatFresh(e: Env, t: Target, quiesce: bool) returns (ok: bool)
      requires row.backend == Disabled
      modifies this
      ensures Outcome(View(), ok) == Exec(old(View()), e, Attempt(old(row), e, t, quiesce))
    {
      var volume, dst := ChooseVolume(row, t), Destination(t, e);
      var newRow := Flipped(row, t, volume);
      ghost var rest := [Action.Mount] + Persist(newRow);
      assert Attempt(row, e, t, quiesce) == [Install] + ([Action.Format(dst, volume)] + rest);
      Peel(View(), e, Install, [Action.Format(dst, volume)] + rest);
      ok := InstallJuicefs(e);
      if !ok { return; }
      Peel(View(), e, Action.Format(dst, volume), rest);
      ok := Format(e, dst, volume);
      if !ok { return; }
      Peel(View(), e, Action.Mount, Persist(newRow));
      ok := Mount(e);
      if !ok { return; }
      ok := PersistRow(e, newRow);
    }

    /** The `except` block. */
    method Rollback(e: Env, backend: Backend, src: Place)
      modifies this
      ensures View() == AfterRollback(old(View()), e, backend, src)
    {
      if backend == Disabled {
        assert Restore(backend, src) == [Action.Umount] + [];
        Peel(View(), e, Action.Umount, []);
        var _ := Umount(e);
        return;
      }
      assert Restore(backend, src) == [Repoint(src)] + ([Action.Umount, Action.Mount] + []);
      Peel(View(), e, Repoint(src), [Action.Umount, Action.Mount] + []);
      var ok := ReconfigureVolumeStorage(e, src);
      if ok { ok := Remount(e, []); }
      if !ok {
        var seen := if pending.Some? then pending.value else row;
        var _ := PersistRow(e, seen.(message := RESTART_NEEDED));
      }
    }

    method Reclaim(e: Env, was: Row, t: Target, volume: string)
      modifies this
      ensures View() == AfterReclaim(old(View()), e, was, t, volume)
    {
      match was.backend {
        case Local =>
          var fault := Pass(e);
          stores := Removed(stores, (s: Slot) => s.place == LocalDisk, fault);
        case S3 =>
          if was.bucket != t.bucket || Or(was.volumeName, DEFAULT_VOLUME_NAME) != volume {
            var fault := Pass(e);
            stores := Removed(stores, (s: Slot) => s == Slot(Source(was, e), volume), fault);
          }
        case _ =>
      }
    }

    /** `configure_backend`: what it does, that it fails open, and what success means. */
    method ConfigureBackend(e: Env, t: Target, quiesce: bool) returns (ok: bool)
      requires DistinctContainers(apps)
      modifies this
      ensures Outcome(View(), ok) == AfterConfigure(old(View()), e, t, quiesce)
      ensures Agrees(old(View()), e) && SafeToCall(old(View()), t, quiesce, e.podman) ==>
                NothingLost(View())
                && (ok && t.zoneDefault != "" ==> OnTarget(View(), e, t) && Agrees(View(), e))
    {
      ghost var before := View();
      var was := row;
      if Refuses(row) { return false; }
      if row.backend == Disabled {
        ok := FormatFresh(e, t, quiesce);
      } else {
        ok := MigrateVolume(e, t, quiesce);
      }
      if ok {
        Reclaim(e, was, t, ChooseVolume(was, t));
      } else {
        Rollback(e, was.backend, Source(was, e));
      }
      if Agrees(before, e) && SafeToCall(before, t, quiesce, e.podman) {
        FailOpen(before, e, t, quiesce);
        if ok && t.zoneDefault != "" { SuccessAgreesAgain(before, e, t, quiesce); }
      }
    }

    /** `restart_apps_by_id`, and the close of the connection. */
    method RestartAppsById(ids: seq<AppId>, fates: AppId -> Restart)
      modifies this
      ensures View() == AfterRestarts(old(View()), ids, fates)
    {
      for i := 0 to |ids|
        invariant AfterRestarts(View(), ids[i..], fates) == AfterRestarts(old(View()), ids, fates)
      {
        match fates(ids[i]) {
          case Refused =>
          case RolledBack => pending := None;
          case Marked =>
            row := if pending.Some? then pending.value else row;
            pending := None;
        }
        assert ids[i..][1..] == ids[i + 1..];
      }
      pending := None;
    }

    /** The request: migrate, and restart what was quiesced over a live mount. */
    method HandleRequest(e: Env, t: Target, fates: AppId -> Restart) returns (ok: bool)
      requires DistinctContainers(apps)
      modifies this
      ensures Outcome(View(), ok) == AfterRequest(old(View()), e, t, fates)
    {
      ok := ConfigureBackend(e, t, Migrating(row));
      RestartAppsById(if mounted.Some? then recorded else [], fates);
    }
  }
}
