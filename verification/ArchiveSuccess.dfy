/**
 What a call of `configure_backend` that gets through has achieved, said in terms of the row and the
 stores alone; when it gets through; and that calls may follow one another.
 */
module ArchiveSuccess {
  import opened AppStatus
  import opened ArchiveQuiesce
  import opened Options
  import opened ArchiveWorld
  import opened ArchiveMigration
  import opened ArchiveSafety
  import opened ArchiveTheorems
  import opened ArchiveLoss

  // ---- the volume's name ----------------------------------------------------------------------

  /** The first of these that is not empty. */
  predicate FirstGiven(name: string, a: string, b: string, c: string) {
    name == a != "" || (a == "" && name == b != "") || (a == b == "" && name == c)
  }

  /** Which name is chosen: of a volume on S3 always its own; of a local one its own, unless that is the
      shared default; and else the operator's name, the operator's prefix, or the zone's own. */
  lemma NameChosen(w: World, e: Env, t: Target)
    requires Agrees(w, e) && w.row.backend != Other
    ensures w.row.backend == S3 ==> ChooseVolume(w.row, t) == w.prefix
    ensures w.row.backend == Local && w.row.volumeName !in {"", DEFAULT_VOLUME_NAME} ==>
              ChooseVolume(w.row, t) == w.row.volumeName && (w.formatted ==> w.prefix == w.row.volumeName)
    ensures w.row.backend == Disabled || (w.row.backend == Local && w.row.volumeName in {"", DEFAULT_VOLUME_NAME}) ==>
              FirstGiven(ChooseVolume(w.row, t), t.volumeName, t.prefix, t.zoneDefault)
  {
  }

  /** The name a volume has is kept exactly if it is on S3, or has a name of its own, or is given the
      shared default again. */
  lemma KeepsPrefixExactlyWhen(w: World, e: Env, t: Target)
    requires Agrees(w, e) && w.formatted
    ensures KeepsPrefix(w, t) <==>
            w.row.backend == S3 || w.prefix != DEFAULT_VOLUME_NAME
            || FirstGiven(DEFAULT_VOLUME_NAME, t.volumeName, t.prefix, t.zoneDefault)
  {
  }

  // ---- what success means ---------------------------------------------------------------------

  /** The row names the bucket, region and endpoint asked for, in that order, and the volume's own
      prefix; and that is where the volume and its mount are. */
  predicate OnTarget(w: World, e: Env, t: Target) {
    && w.row.backend == S3
    && w.row.bucket == t.bucket && w.row.region == t.region && w.row.endpoint == t.endpoint
    && w.row.prefix == w.row.volumeName == w.prefix && w.row.hasKeys && w.row.message == ""
    && w.installed && w.formatted
    && w.pointsAt == Bucket(t.bucket, e.provider(t.region, t.endpoint)) == Source(w.row, e)
    && w.mounted == Some(w.pointsAt) && w.pending == None
  }

  lemma StepStaysInstalled(w: World, e: Env, a: Action)
    ensures w.installed ==> Do(w, e, a).world.installed
    ensures a == Install && Do(w, e, a).ok ==> Do(w, e, a).world.installed
  {
  }

  lemma {:induction false} ScriptInstalls(w: World, e: Env, script: Script)
    requires Exec(w, e, script).ok && (w.installed || (script != [] && script[0] == Install))
    ensures Exec(w, e, script).world.installed
    decreases |script|
  {
    if script != [] {
      StepStaysInstalled(w, e, script[0]);
      ScriptInstalls(Do(w, e, script[0]).world, e, script[1..]);
    }
  }

  /** After a call that succeeds, row and volume agree again, on the target.  The zone's own name is
      never empty. */
  lemma SuccessAgreesAgain(w: World, e: Env, t: Target, quiesce: bool)
    requires Agrees(w, e) && SafeToCall(w, t, quiesce, e.podman) && t.zoneDefault != ""
    requires AfterConfigure(w, e, t, quiesce).ok
    ensures OnTarget(AfterConfigure(w, e, t, quiesce).world, e, t) && Agrees(AfterConfigure(w, e, t, quiesce).world, e)
  {
    var p := PlanOf(w, e, t);
    FailOpen(w, e, t, quiesce);
    SuccessIsComplete(w, e, t, quiesce);
    AttemptArrives(w, e, t, quiesce);
    ScriptInstalls(w, e, Attempt(w.row, e, t, quiesce));
    ReclaimSparesTheDestination(Attempted(w, e, t, quiesce).world, e, p, w.row, t);
  }

  /** A call that failed, but whose rollback has worked and left nothing open, leaves them agreeing as
      before. */
  lemma FailureAgreesAgain(w: World, e: Env, t: Target, quiesce: bool)
    requires Agrees(w, e) && SafeToCall(w, t, quiesce, e.podman) && w.formatted && !Refuses(w.row)
    requires !AfterConfigure(w, e, t, quiesce).ok && !FlipLeftOpen(w, e, t, quiesce)
    requires FineFrom(e, Attempted(w, e, t, quiesce).world.clock)
    ensures AfterConfigure(w, e, t, quiesce).world.row == w.row && Agrees(AfterConfigure(w, e, t, quiesce).world, e)
  {
    var p, a := PlanOf(w, e, t), Attempted(w, e, t, quiesce).world;
    AttemptArrives(w, e, t, quiesce);
    RollbackGoes(a, e, p, w.row.backend);
    RollbackRestoresTheSource(w, e, t, quiesce);
    FailOpen(w, e, t, quiesce);
    ScriptStaysFormatted(w, e, Attempt(w.row, e, t, quiesce));
    ScriptStaysFormatted(a, e, Restore(w.row.backend, Source(w.row, e)));
  }

  /** A zone that never had a volume is left unmounted, if nothing raises after the attempt. */
  lemma FailedFreshCallIsUnmounted(w: World, e: Env, t: Target, quiesce: bool)
    requires w.pending == None && w.row.backend == Disabled && !Attempted(w, e, t, quiesce).ok
    requires FineFrom(e, Attempted(w, e, t, quiesce).world.clock)
    ensures AfterConfigure(w, e, t, quiesce).world.mounted == None
    ensures AfterConfigure(w, e, t, quiesce).world.row == w.row
  {
    var a := Attempted(w, e, t, quiesce).world;
    assert Restore(Disabled, Source(w.row, e)) == [Umount] + [];
    Peel(a, e, Umount, []);
    FailureKeepsTheRow(w, e, t, quiesce);
  }

  // ---- calls one after the other --------------------------------------------------------------

  datatype Call = Call(target: Target, quiesce: bool)

  /** A call that is safe, and either succeeds or is rolled back without a trace. */
  ghost predicate GoesWell(w: World, e: Env, c: Call) {
    && SafeToCall(w, c.target, c.quiesce, e.podman) && c.target.zoneDefault != ""
    && (AfterConfigure(w, e, c.target, c.quiesce).ok
        || Refuses(w.row)
        || (w.formatted && !FlipLeftOpen(w, e, c.target, c.quiesce)
            && FineFrom(e, Attempted(w, e, c.target, c.quiesce).world.clock)))
  }

  /** `worlds` are what the calls lead through, with anything that keeps row and volume agreeing, such
      as the apps' own doings, in between. */
  ghost predicate IsSeries(calls: seq<Call>, worlds: seq<World>, between: seq<World>, e: Env) {
    && |worlds| == |calls| + 1 && |between| == |calls|
    && forall i :: 0 <= i < |calls| ==>
         && (Agrees(worlds[i], e) ==> Agrees(between[i], e)) && GoesWell(between[i], e, calls[i])
         && worlds[i + 1] == AfterConfigure(between[i], e, calls[i].target, calls[i].quiesce).world
  }

  /** Over any number of such calls, to any targets, nothing is ever lost. */
  lemma {:induction false} SeriesLosesNothing(calls: seq<Call>, worlds: seq<World>, between: seq<World>, e: Env,
                                              i: nat)
    requires IsSeries(calls, worlds, between, e) && i <= |calls| && Agrees(worlds[0], e)
    ensures Agrees(worlds[i], e) && NothingLost(worlds[i])
  {
    if i > 0 {
      SeriesLosesNothing(calls, worlds, between, e, i - 1);
      var v, c := between[i - 1], calls[i - 1];
      assert GoesWell(v, e, c);
      if AfterConfigure(v, e, c.target, c.quiesce).ok {
        SuccessAgreesAgain(v, e, c.target, c.quiesce);
      } else if !Refuses(v.row) {
        FailureAgreesAgain(v, e, c.target, c.quiesce);
      }
    }
  }

  // ---- when it succeeds -----------------------------------------------------------------------

  /** The containers that launches bring up are none the callback looks for. */
  lemma ArrivalsBlockNobody(w: World, e: Env, up: set<Cid>)
    requires DistinctContainers(w.apps)
    ensures Blocked(Arrived(w, e) * up, w.apps, e.podman) ==> Blocked(w.live * up, w.apps, e.podman)
  {
    ArrivalsAreExpected(w, e);
    forall r | r in w.apps && SeenRunning(Arrived(w, e) * up, r, e.podman)
      ensures SeenRunning(w.live * up, r, e.podman) {
    }
  }

  lemma StepKeepsUnblocked(w: World, e: Env, a: Action)
    requires Unblocked(w, e)
    ensures Unblocked(Do(w, e, a).world, e)
  {
    StepAdmitsOnlyArrivals(w, e, a);
    var v := Do(w, e, a).world;
    forall i: nat ensures !Blocked(v.live * e.up(i), v.apps, e.podman) {
      ArrivalsBlockNobody(w, e, e.up(i));
      FewerBlock(v.live * e.up(i), Arrived(w, e) * e.up(i), w.apps, e.podman);
    }
  }

  lemma FineStepWorks(w: World, e: Env, a: Action)
    requires FineFrom(e, 0) && a != Quiesce && (a.Mount? || a.Repoint? ==> w.formatted)
    ensures Do(w, e, a).ok && (a.Format? || a.EnsureFormatted? ==> Do(w, e, a).world.formatted)
  {
  }

  lemma FineQuiesceWorks(w: World, e: Env)
    requires FineFrom(e, 0) && Unblocked(w, e)
    ensures AfterQuiesce(w, e).ok
  {
    ArrivalsBlockNobody(w, e, e.up(w.clock));
    RefusesExactlyWhen(Arrived(w, e), e.up(w.clock), w.apps, e.podman);
  }

  /** On a formatted volume every script runs through in which nothing raises. */
  lemma {:induction false} FineScriptWorks(w: World, e: Env, script: Script)
    requires FineFrom(e, 0) && w.formatted && (Quiesce in script ==> Unblocked(w, e))
    ensures Exec(w, e, script).ok
    decreases |script|
  {
    if script != [] {
      if script[0] == Quiesce { FineQuiesceWorks(w, e); } else { FineStepWorks(w, e, script[0]); }
      StepStaysFormatted(w, e, script[0]);
      if Quiesce in script { StepKeepsUnblocked(w, e, script[0]); }
      FineScriptWorks(Do(w, e, script[0]).world, e, script[1..]);
    }
  }

  /** So does one that installs and formats first. */
  lemma FineFormattingWorks(w: World, e: Env, format: Action, rest: Script)
    requires FineFrom(e, 0) && (format.Format? || format.EnsureFormatted?) && (Quiesce in rest ==> Unblocked(w, e))
    ensures Exec(w, e, [Install] + ([format] + rest)).ok
  {
    Peel(w, e, Install, [format] + rest);
    FineStepWorks(w, e, Install);
    var a := Do(w, e, Install).world;
    Peel(a, e, format, rest);
    FineStepWorks(a, e, format);
    if Quiesce in rest {
      StepKeepsUnblocked(w, e, Install);
      StepKeepsUnblocked(a, e, format);
    }
    FineScriptWorks(Do(a, e, format).world, e, rest);
  }

  /** A call in which nothing raises, and the callback meets no app it cannot stop, succeeds exactly if
      the row says local, or disabled, or S3 with a bucket and keys. */
  lemma FineCallSucceedsExactlyWhen(w: World, e: Env, t: Target, quiesce: bool)
    requires Agrees(w, e) && FineFrom(e, 0) && (quiesce ==> Unblocked(w, e))
    ensures AfterConfigure(w, e, t, quiesce).ok <==>
            || w.row.backend == Local || w.row.backend == Disabled
            || (w.row.backend == S3 && w.row.bucket != "" && w.row.hasKeys)
    ensures w.row.backend == Other || (w.row.backend == S3 && (w.row.bucket == "" || !w.row.hasKeys)) ==>
              AfterConfigure(w, e, t, quiesce) == Outcome(w, false)
  {
    var volume := ChooseVolume(w.row, t);
    var attempt := Attempt(w.row, e, t, quiesce);
    if w.row.backend == Disabled {
      var rest := [Mount] + Persist(Flipped(w.row, t, volume));
      assert attempt == [Install] + ([Format(Destination(t, e), volume)] + rest);
      FineFormattingWorks(w, e, Format(Destination(t, e), volume), rest);
    } else if w.row.backend == Local {
      var rest := [Mount] + (if quiesce then [Quiesce] else [])
                  + (Copy(Source(w.row, e), Destination(t, e), volume) + Switch(Flipped(w.row, t, volume)));
      assert attempt == [Install] + ([EnsureFormatted(volume)] + rest);
      FineFormattingWorks(w, e, EnsureFormatted(volume), rest);
    } else if w.row.backend == S3 {
      FineScriptWorks(w, e, attempt);
    }
  }

  /** Then it leaves nothing behind: the local store is empty, and so is the old prefix, unless the new
      bucket has the old one's name. */
  lemma FineCallEmptiesTheSource(w: World, e: Env, t: Target, quiesce: bool)
    requires Agrees(w, e) && FineFrom(e, 0) && AfterConfigure(w, e, t, quiesce).ok
    ensures w.row.backend == Local ==>
              forall s: Slot :: s.place == LocalDisk ==> Objects(AfterConfigure(w, e, t, quiesce).world.stores, s) == {}
    ensures w.row.backend == S3 && w.row.bucket != t.bucket ==>
              At(AfterConfigure(w, e, t, quiesce).world, Source(w.row, e), w.prefix) == {}
  {
  }
}
