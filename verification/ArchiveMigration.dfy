/**
 `configure_backend` (core/archive_backend.py): quiesce, copy, re-point, remount, flip the row,
 reclaim, with a rollback for each starting state, over the steps of ArchiveWorld.
 */
module ArchiveMigration {
  import opened ArchiveWorld

  const DEFAULT_VOLUME_NAME := "openhost"

  /** What the operator asks for; `zoneDefault` is the name derived from the zone's domain. */
  datatype Target = Target(bucket: string, region: string, endpoint: string, prefix: string, volumeName: string,
                           zoneDefault: string)

  function PlaceOf(bucket: string, region: string, endpoint: string, e: Env): Place {
    Bucket(bucket, e.provider(region, endpoint))
  }

  function Destination(t: Target, e: Env): Place { PlaceOf(t.bucket, t.region, t.endpoint, e) }

  /** Where the row says the objects are. */
  function Source(row: Row, e: Env): Place {
    if row.backend == S3 then PlaceOf(row.bucket, row.region, row.endpoint, e) else LocalDisk
  }

  function Or(a: string, b: string): string { if a != "" then a else b }

  function FreshName(t: Target): string { Or(Or(t.volumeName, t.prefix), t.zoneDefault) }

  /** The volume name for this configuration: kept, except that a local volume still called by
      the shared default is given another name. */
  function ChooseVolume(row: Row, t: Target): string {
    match row.backend
    case S3 => Or(row.volumeName, DEFAULT_VOLUME_NAME)
    case Local =>
      if Or(row.volumeName, DEFAULT_VOLUME_NAME) == DEFAULT_VOLUME_NAME then FreshName(t) else row.volumeName
    case _ => FreshName(t)
  }

  predicate Refuses(row: Row) {
    row.backend == Other || (row.backend == S3 && (row.bucket == "" || !row.hasKeys))
  }

  function Flipped(row: Row, t: Target, volume: string): Row {
    Row(S3, t.bucket, t.region, t.endpoint, volume, true, volume, "")
  }

  /** Copy first; only a complete copy re-points the volume. */
  function Copy(src: Place, dst: Place, volume: string): Script {
    [Sync(Slot(src, volume), Slot(dst, volume)), Repoint(dst)]
  }

  lemma CopySteps(w: World, e: Env, src: Place, dst: Place, volume: string)
    ensures var s := AfterSync(w, e, Slot(src, volume), Slot(dst, volume));
            Exec(w, e, Copy(src, dst, volume)) == if s.ok then AfterRepoint(s.world, e, dst) else s
  {
    var from, to := Slot(src, volume), Slot(dst, volume);
    assert Copy(src, dst, volume) == [Sync(from, to)] + ([Repoint(dst)] + []);
    Peel(w, e, Sync(from, to), [Repoint(dst)] + []);
    Peel(AfterSync(w, e, from, to).world, e, Repoint(dst), []);
  }

  /** What comes before the copy: a complete source, and nobody writing to it. */
  function Gather(row: Row, volume: string, quiesce: bool): Script {
    [Install] + (if row.backend == Local then [EnsureFormatted(volume)] else []) + [Mount]
    + (if quiesce then [Quiesce] else [])
  }

  /** The restart of the mount, and the flip of the row. */
  function Switch(row: Row): Script { [Umount, Mount] + Persist(row) }

  function Persist(row: Row): Script { [Update(row), Commit] }

  lemma PersistSteps(w: World, e: Env, row: Row)
    ensures var u := AfterUpdate(w, e, row); Exec(w, e, Persist(row)) == if u.ok then AfterCommit(u.world, e) else u
  {
    assert Persist(row) == [Update(row)] + ([Commit] + []);
    Peel(w, e, Update(row), [Commit] + []);
    Peel(AfterUpdate(w, e, row).world, e, Commit, []);
  }

  /** The `try` block, by starting state. */
  function Attempt(row: Row, e: Env, t: Target, quiesce: bool): Script {
    var volume := ChooseVolume(row, t);
    var flipped := Flipped(row, t, volume);
    match row.backend
    case Disabled => [Install, Format(Destination(t, e), volume), Mount] + Persist(flipped)
    case _ => Gather(row, volume, quiesce) + (Copy(Source(row, e), Destination(t, e), volume) + Switch(flipped))
  }

  /** The first half of the `except` block. */
  function Restore(backend: Backend, src: Place): Script {
    if backend == Disabled then [Umount] else [Repoint(src), Umount, Mount]
  }

  const RESTART_NEEDED := "Migration failed and the original mount could not be restarted."

  /** A message is recorded only when restoring a migrated zone raised; that may raise too. */
  function AfterRollback(w: World, e: Env, backend: Backend, src: Place): World {
    var o := Exec(w, e, Restore(backend, src));
    if o.ok || backend == Disabled then o.world
    else Exec(o.world, e, Persist(Seen(o.world).(message := RESTART_NEEDED))).world
  }

  /** Buckets are compared by name alone, so a bucket of the same name is never reclaimed. */
  function AfterReclaim(w: World, e: Env, was: Row, t: Target, volume: string): World {
    match was.backend
    case Local => AfterRemoval(w, e, (s: Slot) => s.place == LocalDisk)
    case S3 =>
      if was.bucket == t.bucket && Or(was.volumeName, DEFAULT_VOLUME_NAME) == volume then w
      else AfterRemoval(w, e, (s: Slot) => s == Slot(Source(was, e), volume))
    case _ => w
  }

  function AfterConfigure(w: World, e: Env, t: Target, quiesce: bool): Outcome {
    if Refuses(w.row) then Outcome(w, false)
    else
      var o := Exec(w, e, Attempt(w.row, e, t, quiesce));
      if !o.ok then Outcome(AfterRollback(o.world, e, w.row.backend, Source(w.row, e)), false)
      else Outcome(AfterReclaim(o.world, e, w.row, t, ChooseVolume(w.row, t)), true)
  }
}
