/** What `configure_backend` promises of one call, whichever of its steps raise. */
module ArchiveTheorems {
  import opened ArchiveQuiesce
  import opened Options
  import opened ArchiveWorld
  import opened ArchiveMigration
  import opened ArchiveSafety

  /** Before the call the row says truly where the volume is, nothing is lost, and no
      transaction is open. */
  predicate Agrees(w: World, e: Env) {
    && NothingLost(w) && w.pending == None && DistinctContainers(w.apps)
    && (!w.formatted ==> w.needed == {} && w.mounted == None)
    && (w.mounted.Some? ==> w.mounted.value == w.pointsAt)
    && match w.row.backend
       case Local => w.formatted ==> w.pointsAt == LocalDisk && w.prefix == Or(w.row.volumeName, DEFAULT_VOLUME_NAME)
       case S3 => w.formatted && w.pointsAt == Source(w.row, e) && w.prefix == Or(w.row.volumeName, DEFAULT_VOLUME_NAME)
       case _ => !w.formatted
  }

  /** The name chosen is the one the metadata already uses. */
  predicate KeepsPrefix(w: World, t: Target) { w.formatted ==> ChooseVolume(w.row, t) == w.prefix }

  /** When a call loses nothing, read off the state before it: the volume keeps its name and nobody
      is left to write. */
  predicate SafeToCall(w: World, t: Target, quiesce: bool, podman: Podman) {
    w.row.backend == Disabled || (KeepsPrefix(w, t) && Hushed(w, podman, quiesce))
  }

  function PlanOf(w: World, e: Env, t: Target): Plan {
    var dst := Destination(t, e);
    Plan(if w.row.backend == Local || w.row.backend == S3 then Source(w.row, e) else dst, dst,
         if w.formatted then w.prefix else ChooseVolume(w.row, t))
  }

  lemma StartsSound(w: World, e: Env, t: Target)
    requires Agrees(w, e) && !Refuses(w.row)
    requires w.row.backend == Disabled || w.formatted || w.row.backend == Local
    ensures Sound(w, PlanOf(w, e, t))
  {
  }

  /** The `try` block as an outcome. */
  function Attempted(w: World, e: Env, t: Target, quiesce: bool): Outcome {
    Exec(w, e, Attempt(w.row, e, t, quiesce))
  }

  lemma AttemptArrives(w: World, e: Env, t: Target, quiesce: bool)
    requires Agrees(w, e) && !Refuses(w.row) && SafeToCall(w, t, quiesce, e.podman)
    ensures Arrives(w, Attempted(w, e, t, quiesce), PlanOf(w, e, t))
    ensures Attempted(w, e, t, quiesce).ok ==> KeepsPrefix(w, t)
  {
    var p := PlanOf(w, e, t);
    if w.row.backend == Disabled {
      StartsSound(w, e, t);
      FreshArrives(w, e, p, Flipped(w.row, t, p.volume));
    } else {
      StartsSound(w, e, t);
      var gather := Gather(w.row, p.volume, quiesce);
      assert quiesce <==> Quiesce in gather;
      MigrationArrives(w, e, p, gather, Flipped(w.row, t, p.volume));
    }
  }

  /** While nobody may write, a removal changes nothing but the slots it hits. */
  lemma RemovalSpares(w: World, e: Env, hit: Slot -> bool)
    requires !MayWrite(w)
    ensures var w' := AfterRemoval(w, e, hit);
            && w' == w.(stores := w'.stores, clock := w'.clock)
            && (forall s :: !hit(s) ==> Objects(w'.stores, s) == Objects(w.stores, s))
            && forall s :: Objects(w'.stores, s) <= Objects(w.stores, s)
  {
    ArrivalsAreExpected(w, e);
    assert Arrived(w, e) == w.live;
    ArrivalsChangeNothing(w, e, e.up(w.clock));
  }

  /** Reclaiming touches only the source, and only once the volume is elsewhere. */
  lemma ReclaimSparesTheDestination(w: World, e: Env, p: Plan, was: Row, t: Target)
    requires Sound(w, p) && w.formatted && w.pointsAt == p.dst && p.dst == Destination(t, e)
    requires p.volume == ChooseVolume(was, t)
    requires was.backend == Local || was.backend == S3 ==> p.src == Source(was, e)
    ensures var w' := AfterReclaim(w, e, was, t, p.volume);
            && w' == w.(stores := w'.stores, clock := w'.clock)
            && (forall s :: !InPlan(s, p) && s.place != LocalDisk ==> Objects(w'.stores, s) == Objects(w.stores, s))
            && At(w', p.dst, p.volume) == At(w, p.dst, p.volume)
            && forall s :: Objects(w'.stores, s) <= Objects(w.stores, s)
  {
    if p.src != p.dst {
      RemovalSpares(w, e, (s: Slot) => s.place == LocalDisk);
      RemovalSpares(w, e, (s: Slot) => s == Slot(Source(was, e), p.volume));
    }
  }

  /** Fail-open: whichever step raises, rollback steps included, the store the volume points at
      holds every object the metadata needs. */
  lemma FailOpen(w: World, e: Env, t: Target, quiesce: bool)
    requires Agrees(w, e) && SafeToCall(w, t, quiesce, e.podman)
    ensures NothingLost(AfterConfigure(w, e, t, quiesce).world)
  {
    if !Refuses(w.row) {
      var p := PlanOf(w, e, t);
      AttemptArrives(w, e, t, quiesce);
      var o := Attempted(w, e, t, quiesce);
      if o.ok {
        ReclaimSparesTheDestination(o.world, e, p, w.row, t);
      } else {
        RollbackGoes(o.world, e, p, w.row.backend);
      }
    }
  }

  /** An object leaves the source only when the call succeeds, the row is committed to the
      destination, the volume and its mount are there, and the destination has the object. */
  lemma SourceIsReclaimedOnlyAfterTheSwitch(w: World, e: Env, t: Target, quiesce: bool, o: Obj)
    requires Agrees(w, e) && SafeToCall(w, t, quiesce, e.podman)
    requires o in At(w, Source(w.row, e), ChooseVolume(w.row, t))
    ensures var r := AfterConfigure(w, e, t, quiesce);
            o !in At(r.world, Source(w.row, e), ChooseVolume(w.row, t)) ==>
              && r.ok && r.world.row == Flipped(w.row, t, ChooseVolume(w.row, t))
              && r.world.pointsAt == Destination(t, e) && r.world.mounted == Some(Destination(t, e))
              && o in At(r.world, Destination(t, e), ChooseVolume(w.row, t))
  {
    if !Refuses(w.row) {
      var p := PlanOf(w, e, t);
      AttemptArrives(w, e, t, quiesce);
      var a := Attempted(w, e, t, quiesce);
      if a.ok {
        AttemptRow(w, e, t, quiesce);
        ReclaimSparesTheDestination(a.world, e, p, w.row, t);
      } else {
        RollbackGoes(a.world, e, p, w.row.backend);
      }
    }
  }

  /** Success leaves row, volume and mount at the destination. */
  lemma SuccessIsComplete(w: World, e: Env, t: Target, quiesce: bool)
    requires Agrees(w, e) && SafeToCall(w, t, quiesce, e.podman)
    requires AfterConfigure(w, e, t, quiesce).ok
    ensures var r := AfterConfigure(w, e, t, quiesce).world;
            && r.row == Flipped(w.row, t, ChooseVolume(w.row, t)) && r.pending == None
            && r.row.bucket == t.bucket && r.row.region == t.region && r.row.endpoint == t.endpoint
            && r.formatted && r.pointsAt == Destination(t, e) == Source(r.row, e)
            && r.mounted == Some(Destination(t, e))
  {
    AttemptArrives(w, e, t, quiesce);
    AttemptRow(w, e, t, quiesce);
    ReclaimSparesTheDestination(Attempted(w, e, t, quiesce).world, e, PlanOf(w, e, t), w.row, t);
  }

  /** Zones that share a bucket: no slot but this volume's own and the local store ever changes,
      and a call that fails deletes nothing at all. */
  lemma OtherZonesAreUntouched(w: World, e: Env, t: Target, quiesce: bool, s: Slot)
    requires Agrees(w, e) && SafeToCall(w, t, quiesce, e.podman)
    ensures var r := AfterConfigure(w, e, t, quiesce);
            && (!InPlan(s, PlanOf(w, e, t)) && s.place != LocalDisk ==>
                  Objects(r.world.stores, s) == Objects(w.stores, s))
            && (!r.ok ==> Objects(w.stores, s) <= Objects(r.world.stores, s))
  {
    if !Refuses(w.row) {
      var p := PlanOf(w, e, t);
      AttemptArrives(w, e, t, quiesce);
      var a := Attempted(w, e, t, quiesce);
      if a.ok {
        ReclaimSparesTheDestination(a.world, e, p, w.row, t);
      } else {
        RollbackGoes(a.world, e, p, w.row.backend);
      }
    }
  }

  /** Buckets of one name at two providers count as one location: the old one is kept. */
  lemma SameNamedBucketIsNeverReclaimed(w: World, e: Env, t: Target, quiesce: bool)
    requires Agrees(w, e) && SafeToCall(w, t, quiesce, e.podman) && w.row.backend == S3 && w.row.bucket == t.bucket
    ensures At(w, Source(w.row, e), w.prefix) <= At(AfterConfigure(w, e, t, quiesce).world, Source(w.row, e), w.prefix)
  {
    if !Refuses(w.row) {
      AttemptArrives(w, e, t, quiesce);
      RollbackGoes(Attempted(w, e, t, quiesce).world, e, PlanOf(w, e, t), S3);
    }
  }

  // ---- the row ------------------------------------------------------------------------------

  predicate SameRow(w: World, w': World) { w'.row == w.row && w'.pending == w.pending }

  predicate LeavesDatabase(a: Action) { !a.Update? && !a.Commit? }

  lemma StepLeavesDatabase(w: World, e: Env, a: Action)
    requires LeavesDatabase(a)
    ensures SameRow(w, Do(w, e, a).world)
  {
  }

  lemma {:induction false} ScriptLeavesDatabase(w: World, e: Env, script: Script)
    requires forall a :: a in script ==> LeavesDatabase(a)
    ensures SameRow(w, Exec(w, e, script).world)
    decreases |script|
  {
    if script != [] {
      StepLeavesDatabase(w, e, script[0]);
      ScriptLeavesDatabase(Do(w, e, script[0]).world, e, script[1..]);
    }
  }

  /** A refused flip leaves nothing behind, or an open transaction. */
  lemma PersistRow(w: World, e: Env, row: Row)
    ensures var o := Exec(w, e, Persist(row));
            if o.ok then o.world.row == row && o.world.pending == None
            else o.world.row == w.row && o.world.pending == if e.faults(w.clock).Fine? then Some(row) else w.pending
  {
    PersistSteps(w, e, row);
  }

  /** A script that ends with the flip. */
  lemma FlipRow(w: World, e: Env, before: Script, row: Row)
    requires w.pending == None && forall a :: a in before ==> LeavesDatabase(a)
    ensures var o := Exec(w, e, before + Persist(row));
            if o.ok then o.world.row == row && o.world.pending == None
            else o.world.row == w.row && (o.world.pending == None || o.world.pending == Some(row))
  {
    ExecAppends(w, e, before, Persist(row));
    ScriptLeavesDatabase(w, e, before);
    PersistRow(Exec(w, e, before).world, e, row);
  }

  /** What the attempt leaves in the database. */
  lemma AttemptRow(w: World, e: Env, t: Target, quiesce: bool)
    requires w.pending == None
    ensures var o := Attempted(w, e, t, quiesce);
            if o.ok then o.world.row == Flipped(w.row, t, ChooseVolume(w.row, t)) && o.world.pending == None
            else o.world.row == w.row
                 && (o.world.pending == None || o.world.pending == Some(Flipped(w.row, t, ChooseVolume(w.row, t))))
  {
    var volume := ChooseVolume(w.row, t);
    var flipped := Flipped(w.row, t, volume);
    if w.row.backend == Disabled {
      FlipRow(w, e, [Install, Format(Destination(t, e), volume), Mount], flipped);
    } else {
      var gather, copy := Gather(w.row, volume, quiesce), Copy(Source(w.row, e), Destination(t, e), volume);
      assert Attempt(w.row, e, t, quiesce) == (gather + copy + [Umount, Mount]) + Persist(flipped);
      FlipRow(w, e, gather + copy + [Umount, Mount], flipped);
    }
  }

  /** The row, and the transaction left open, after a rollback. */
  lemma RollbackRow(w: World, e: Env, backend: Backend, src: Place)
    ensures var o := Exec(w, e, Restore(backend, src));
            var message := Seen(w).(message := RESTART_NEEDED);
            var r := AfterRollback(w, e, backend, src);
            if backend == Disabled || o.ok then r.row == w.row && r.pending == w.pending
            else if Exec(o.world, e, Persist(message)).ok then r.row == message && r.pending == None
            else r.row == w.row && r.pending == if e.faults(o.world.clock).Fine? then Some(message) else w.pending
  {
    ScriptLeavesDatabase(w, e, Restore(backend, src));
    var o := Exec(w, e, Restore(backend, src));
    PersistRow(o.world, e, Seen(o.world).(message := RESTART_NEEDED));
  }

  /** The flip was executed but its commit raised. */
  predicate FlipLeftOpen(w: World, e: Env, t: Target, quiesce: bool) {
    Attempted(w, e, t, quiesce).world.pending.Some?
  }

  /** Where the rollback has got to when it has restored the source, or failed to. */
  function Restored(w: World, e: Env, t: Target, quiesce: bool): Outcome {
    Exec(Attempted(w, e, t, quiesce).world, e, Restore(w.row.backend, Source(w.row, e)))
  }

  /** Restoring a migrated zone's source raised. */
  predicate RestoreRaised(w: World, e: Env, t: Target, quiesce: bool) {
    w.row.backend != Disabled && !Restored(w, e, t, quiesce).ok
  }

  /** The message of a failed rollback reached the database. */
  predicate MessageSaved(w: World, e: Env, t: Target, quiesce: bool) {
    var v := Restored(w, e, t, quiesce).world;
    Exec(v, e, Persist(Seen(v).(message := RESTART_NEEDED))).ok
  }

  /** The message was at least written, whether or not it could be committed. */
  predicate MessageWritten(w: World, e: Env, t: Target, quiesce: bool) {
    e.faults(Restored(w, e, t, quiesce).world.clock).Fine?
  }

  /** The row as the connection would commit it after the attempt. */
  function Due(w: World, e: Env, t: Target, quiesce: bool): Row {
    if FlipLeftOpen(w, e, t, quiesce) then Flipped(w.row, t, ChooseVolume(w.row, t)) else w.row
  }

  /** What a failed call leaves in the row, exactly: nothing new unless restoring the source raised
      and the message was saved; then the message; and if the commit of the flip had raised
      before, the flip, which that save commits.  And what it leaves open on the connection:
      nothing after such a save; else the flip if its commit had raised, and the message if that
      was written and not committed. */
  lemma FailureKeepsTheRow(w: World, e: Env, t: Target, quiesce: bool)
    requires w.pending == None && !Refuses(w.row) && !AfterConfigure(w, e, t, quiesce).ok
    ensures var r := AfterConfigure(w, e, t, quiesce).world;
            var due := Due(w, e, t, quiesce);
            if !RestoreRaised(w, e, t, quiesce) then
              r.row == w.row && r.pending == if FlipLeftOpen(w, e, t, quiesce) then Some(due) else None
            else if MessageSaved(w, e, t, quiesce) then
              r.row == due.(message := RESTART_NEEDED) && r.pending == None
            else
              && r.row == w.row
              && r.pending == if MessageWritten(w, e, t, quiesce) then Some(due.(message := RESTART_NEEDED))
                              else if FlipLeftOpen(w, e, t, quiesce) then Some(due) else None
  {
    ScriptLeavesDatabase(Attempted(w, e, t, quiesce).world, e, Restore(w.row.backend, Source(w.row, e)));
    AttemptRow(w, e, t, quiesce);
    RollbackRow(Attempted(w, e, t, quiesce).world, e, w.row.backend, Source(w.row, e));
  }

  /** By the time it returns, a failed call has moved the zone's row to the destination exactly if
      the commit of the flip raised, restoring the source raised, and the message was saved.  What
      the caller's next commit adds is ArchiveRequest's. */
  lemma FailedCallFlipsTheRowExactlyWhen(w: World, e: Env, t: Target, quiesce: bool)
    requires w.pending == None && !Refuses(w.row) && !AfterConfigure(w, e, t, quiesce).ok
    requires w.row.(message := "") != Flipped(w.row, t, ChooseVolume(w.row, t))
    ensures AfterConfigure(w, e, t, quiesce).world.row.(message := "") == Flipped(w.row, t, ChooseVolume(w.row, t)) <==>
            FlipLeftOpen(w, e, t, quiesce) && RestoreRaised(w, e, t, quiesce) && MessageSaved(w, e, t, quiesce)
  {
    FailureKeepsTheRow(w, e, t, quiesce);
  }

  ghost predicate FineFrom(e: Env, clock: nat) { forall i: nat :: i >= clock ==> e.faults(i).Fine? }

  lemma {:induction false} ScriptStaysFormatted(w: World, e: Env, script: Script)
    requires w.formatted
    ensures Exec(w, e, script).world.formatted && Exec(w, e, script).world.prefix == w.prefix
    decreases |script|
  {
    if script != [] {
      StepStaysFormatted(w, e, script[0]);
      ScriptStaysFormatted(Do(w, e, script[0]).world, e, script[1..]);
    }
  }

  lemma FineRestore(w: World, e: Env, backend: Backend, src: Place)
    requires w.formatted && FineFrom(e, w.clock) && backend != Disabled
    ensures var o := Exec(w, e, Restore(backend, src)); o.ok && o.world.pointsAt == src && o.world.mounted == Some(src)
  {
    assert Restore(backend, src) == [Repoint(src)] + ([Umount] + [Mount]) && [Mount] == [Mount] + [];
    Peel(w, e, Repoint(src), [Umount] + [Mount]);
    var r := Do(w, e, Repoint(src));
    Peel(r.world, e, Umount, [Mount]);
    Peel(Do(r.world, e, Umount).world, e, Mount, []);
  }

  /** If nothing raises once the attempt has, a migrated zone is back on its source, mounted, and
      its row untouched; but a flip whose commit raised is still open on the connection. */
  lemma RollbackRestoresTheSource(w: World, e: Env, t: Target, quiesce: bool)
    requires w.pending == None && !Refuses(w.row) && w.formatted && w.row.backend != Disabled
    requires !Attempted(w, e, t, quiesce).ok && FineFrom(e, Attempted(w, e, t, quiesce).world.clock)
    ensures var r := AfterConfigure(w, e, t, quiesce).world;
            && r.row == w.row && r.pointsAt == Source(w.row, e) && r.mounted == Some(Source(w.row, e))
            && r.pending == if FlipLeftOpen(w, e, t, quiesce)
                            then Some(Flipped(w.row, t, ChooseVolume(w.row, t))) else None
  {
    ScriptStaysFormatted(w, e, Attempt(w.row, e, t, quiesce));
    FineRestore(Attempted(w, e, t, quiesce).world, e, w.row.backend, Source(w.row, e));
    FailureKeepsTheRow(w, e, t, quiesce);
  }
}
