/**
 The request around `configure_backend` (web/routes/api/archive_backend.py): once the call is over
 it restarts the apps the callback has recorded, over the connection the call has used, and so
 may commit what the call has left open.
 */
module ArchiveRequest {
  import opened AppStatus
  import opened ArchiveQuiesce
  import opened Options
  import opened ArchiveWorld
  import opened ArchiveMigration
  import opened ArchiveTheorems
  import opened ArchiveLoss

  /** What restarting one app does to the open transaction: nothing, when it is refused before it
      has begun; roll it back, when preparing its environment raises; or commit it, when the app is
      marked as starting. */
  datatype Restart = Refused | RolledBack | Marked

  function AfterRestart(w: World, fate: Restart): World {
    match fate
    case Refused => w
    case RolledBack => w.(pending := None)
    case Marked => w.(row := Seen(w), pending := None)
  }

  /** One app after the other; closing the connection drops what is still open. */
  function AfterRestarts(w: World, ids: seq<AppId>, fates: AppId -> Restart): World
    decreases |ids|
  {
    if ids == [] then w.(pending := None) else AfterRestarts(AfterRestart(w, fates(ids[0])), ids[1..], fates)
  }

  predicate Migrating(row: Row) { row.backend == Local || row.backend == S3 }

  /** Apps are restarted only over a live mount. */
  function AfterRequest(w: World, e: Env, t: Target, fates: AppId -> Restart): Outcome {
    var o := AfterConfigure(w, e, t, Migrating(w.row));
    Outcome(AfterRestarts(o.world, if o.world.mounted.Some? then o.world.recorded else [], fates), o.ok)
  }

  /** The first restart that is not refused gets as far as marking its app. */
  predicate CommitsFirst(ids: seq<AppId>, fates: AppId -> Restart) {
    ids != [] && (fates(ids[0]) == Marked || (fates(ids[0]) == Refused && CommitsFirst(ids[1..], fates)))
  }

  /** The restarts commit what was open exactly if the first that is not refused marks its app; in
      the end nothing is open, and nothing else has changed. */
  lemma {:induction false} RestartsCommitExactlyWhen(w: World, ids: seq<AppId>, fates: AppId -> Restart)
    ensures AfterRestarts(w, ids, fates)
         == w.(row := if CommitsFirst(ids, fates) then Seen(w) else w.row, pending := None)
    decreases |ids|
  {
    if ids != [] {
      RestartsCommitExactlyWhen(AfterRestart(w, fates(ids[0])), ids[1..], fates);
    }
  }

  // ---- whom the callback has recorded --------------------------------------------------------------

  predicate SameRecord(w: World, w': World) { w'.apps == w.apps && w'.recorded == w.recorded }

  lemma StorageStepsKeepRecord(w: World, e: Env, a: Action)
    requires a.Install? || a.Format? || a.EnsureFormatted? || a.Mount? || a.Umount?
    ensures SameRecord(w, Do(w, e, a).world)
  {
  }

  lemma StepKeepsRecord(w: World, e: Env, a: Action)
    requires a != Quiesce
    ensures SameRecord(w, Do(w, e, a).world)
  {
    match a
    case Sync(_, _) =>
    case Repoint(_) =>
    case Update(_) =>
    case Commit =>
    case Install => StorageStepsKeepRecord(w, e, a);
    case Format(_, _) => StorageStepsKeepRecord(w, e, a);
    case EnsureFormatted(_) => StorageStepsKeepRecord(w, e, a);
    case Mount => StorageStepsKeepRecord(w, e, a);
    case Umount => StorageStepsKeepRecord(w, e, a);
  }

  lemma {:induction false} ScriptKeepsRecord(w: World, e: Env, script: Script)
    requires Quiesce !in script
    ensures SameRecord(w, Exec(w, e, script).world)
    decreases |script|
  {
    if script != [] {
      StepKeepsRecord(w, e, script[0]);
      ScriptKeepsRecord(Do(w, e, script[0]).world, e, script[1..]);
    }
  }

  /** A script that quiesces and gets through has recorded every app the table calls running. */
  lemma {:induction false} QuiescingRecords(w: World, e: Env, script: Script)
    requires Exec(w, e, script).ok
    ensures Exec(w, e, script).world.apps == w.apps
    ensures Exec(w, e, script).world.recorded == if Quiesce in script then ChosenIds(w.apps) else w.recorded
    decreases |script|
  {
    if script != [] {
      if script[0] != Quiesce { StepKeepsRecord(w, e, script[0]); }
      QuiescingRecords(Do(w, e, script[0]).world, e, script[1..]);
    }
  }

  lemma RollbackKeepsRecord(w: World, e: Env, backend: Backend, src: Place)
    ensures SameRecord(w, AfterRollback(w, e, backend, src))
  {
    ScriptKeepsRecord(w, e, Restore(backend, src));
    var o := Exec(w, e, Restore(backend, src));
    ScriptKeepsRecord(o.world, e, Persist(Seen(o.world).(message := RESTART_NEEDED)));
  }

  lemma OnlyGatheringQuiesces(src: Place, dst: Place, volume: string, flip: Row)
    ensures Quiesce !in Copy(src, dst, volume) + Switch(flip)
  {
  }

  /** A migration that leaves its flip open has recorded every archive app the table calls running. */
  lemma OpenFlipHasRecorded(w: World, e: Env, t: Target)
    requires w.pending == None && Migrating(w.row) && FlipLeftOpen(w, e, t, true)
    ensures Attempted(w, e, t, true).world.recorded == ChosenIds(w.apps)
  {
    var volume := ChooseVolume(w.row, t);
    var gather := Gather(w.row, volume, true);
    var rest := Copy(Source(w.row, e), Destination(t, e), volume) + Switch(Flipped(w.row, t, volume));
    ExecAppends(w, e, gather, rest);
    ScriptLeavesDatabase(w, e, gather);
    var g := Exec(w, e, gather);
    if g.ok {
      QuiescingRecords(w, e, gather);
      OnlyGatheringQuiesces(Source(w.row, e), Destination(t, e), volume, Flipped(w.row, t, volume));
      ScriptKeepsRecord(g.world, e, rest);
    }
  }

  // ---- the row after the request -------------------------------------------------------------------

  /** A failed request has moved the zone's row to the destination exactly if the commit of the flip
      raised, and either restoring the source raised and the message was saved, or the mount is up
      again and the restart of the apps the table had called running commits. */
  lemma FailedRequestFlipsTheRowExactlyWhen(w: World, e: Env, t: Target, fates: AppId -> Restart)
    requires w.pending == None && Migrating(w.row) && !Refuses(w.row) && !AfterRequest(w, e, t, fates).ok
    requires w.row.(message := "") != Flipped(w.row, t, ChooseVolume(w.row, t))
    ensures AfterRequest(w, e, t, fates).world.row.(message := "") == Flipped(w.row, t, ChooseVolume(w.row, t)) <==>
            FlipLeftOpen(w, e, t, true)
            && ((RestoreRaised(w, e, t, true) && MessageSaved(w, e, t, true))
                || (AfterConfigure(w, e, t, true).world.mounted.Some? && CommitsFirst(ChosenIds(w.apps), fates)))
  {
    var v := AfterConfigure(w, e, t, true).world;
    FailureKeepsTheRow(w, e, t, true);
    RestartsCommitExactlyWhen(v, if v.mounted.Some? then v.recorded else [], fates);
    if FlipLeftOpen(w, e, t, true) {
      OpenFlipHasRecorded(w, e, t);
      RollbackKeepsRecord(Attempted(w, e, t, true).world, e, w.row.backend, Source(w.row, e));
    }
  }

  // ---- one fault is enough --------------------------------------------------------------------------

  /** Only step `k` raises, and nobody writes or is launched. */
  ghost predicate OnlyRaisesAt(e: Env, k: nat) {
    forall i: nat :: (e.faults(i).Fine? <==> i != k) && e.traffic(i) == {} && e.arrivals(i) == {}
  }

  /** If just the commit of the flip raises, in a zone with a running archive app, then the call
      fails, the volume is back on its source and mounted there, and the restart of that app
      commits the row of the destination. */
  lemma OneFaultFlipsTheRow(w: World, e: Env, t: Target, fates: AppId -> Restart)
    requires Agrees(w, e) && w.formatted && Migrating(w.row) && !Refuses(w.row) && Unblocked(w, e)
    requires OnlyRaisesAt(e, CopyClock(w, true) + 5) && CommitsFirst(ChosenIds(w.apps), fates)
    ensures var r := AfterRequest(w, e, t, fates);
            && !r.ok && r.world.row == Flipped(w.row, t, ChooseVolume(w.row, t))
            && r.world.pointsAt == Source(w.row, e) && r.world.mounted == Some(Source(w.row, e))
  {
    var volume := ChooseVolume(w.row, t);
    var gather, copy := Gather(w.row, volume, true), Copy(Source(w.row, e), Destination(t, e), volume);
    GatheredCalmly(w, e, volume, true, Slot(LocalDisk, volume));
    ScriptLeavesDatabase(w, e, gather);
    var g := Exec(w, e, gather);
    FineCopy(g.world, e, Source(w.row, e), Destination(t, e), volume);
    ScriptLeavesDatabase(g.world, e, copy);
    AttemptParts(w, e, t, true);
    BrokenSwitch(Exec(g.world, e, copy).world, e, Flipped(w.row, t, volume));
    OpenFlipHasRecorded(w, e, t);
    RollbackRestoresTheSource(w, e, t, true);
    var v := AfterConfigure(w, e, t, true).world;
    RollbackKeepsRecord(Attempted(w, e, t, true).world, e, w.row.backend, Source(w.row, e));
    RestartsCommitExactlyWhen(v, v.recorded, fates);
  }
}
