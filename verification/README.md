# Verified models of the compute space and its system agent

This project models the parts of the system whose guarantees span several functions, and proves
them with Dafny.  `dafny verify dfyconfig.toml` checks everything.  Outside tools (JuiceFS, S3,
podman, systemd, git, sqlite) appear as small abstract state with nondeterministic success or
failure; clocks, randomness and network answers are parameters.

What the program changes in place is a class whose methods are proved against functions of the old
state; the theorems are lemmas about those functions and about runs.

| files | what they model |
|---|---|
| `ArchiveWorld`, `ArchiveMigration`, `ArchiveSafety`, `ArchiveTheorems`, `ArchiveLoss`, `ArchiveSuccess`, `ArchiveRequest`, `ArchiveZone` | one migration of the archive to S3 or between buckets, with a fault possible at every step and rollback step, the request around it, and calls one after the other |
| `ArchiveQuiesce` | stopping archive apps before a migration, and what that overlooks |
| `S3Reclaim`, `ArchiveReclaim` | deleting an old prefix in pages and batches, and that this is the removal of one slot |
| `DomainTable`, `AppLifecycle`, `AppRuns`, `BootRecovery`, `AppLaunch` | launches, primary-domain promotions, crashes and boot recovery |
| `HostMatching` | which domain owns a host, and app links |
| `ReleaseTags`, `UpdateWalk` | the walk over release tags to an optional pin |
| `MigrationLog`, `MigrationRunner` | the append-only migration log and the runner above it |
| `PortAllocator` | host ports over installs, reloads and removals |
| `CertIssuance`, `CertPolling` | certificate acquisitions around one DNS-01 record; the backoff poll |
| `OperationLocks`, `DowntimePorts`, `ServiceDefaults` | the exclusive-operation lock; taking ports during downtime; default providers |
| `AppStatus`, `Options`, `Sequences`, `Sets`, `Strings` | shared small definitions |

## Where the code and its documentation differ

The model follows the code.  Each point has an instance and the exact condition.

- `configure_backend` says renaming a volume still called `openhost` is safe because the local store
  is re-keyed.  The code passes the new name to the copy's source as well, so nothing is copied
  (`ArchiveLoss.LegacyZoneLosesItsArchive`).
- The quiesce callback is to leave no app writing during the copy.  It looks at rows the table calls
  running, so an app that is building or starting goes on writing
  (`ArchiveQuiesce.StartingAppKeepsWriting`, `ArchiveLoss.StartingAppLosesItsWrites`).  Nor does its
  check for a container still running keep one from coming back: containers run with
  `--restart=unless-stopped`.  When the callback does leave none is
  `ArchiveQuiesce.QuiescedExactlyWhen`; when a whole migration loses nothing is
  `ArchiveLoss.SafeExactlyWhen`.
- A failed `configure_backend` is to leave the row unchanged.  A commit that raises leaves the flip in
  the open transaction.  The message recorded after a failed rollback commits it
  (`ArchiveLoss.FailedCallMayFlipTheRow`; exactly when:
  `ArchiveTheorems.FailedCallFlipsTheRowExactlyWhen`), and so does, after a rollback that worked, the
  restart of the quiesced apps over the same connection (`ArchiveRequest.OneFaultFlipsTheRow`; exactly
  when: `ArchiveRequest.FailedRequestFlipsTheRowExactlyWhen`).
- Promotion is to reach every app through a restart.  An install reads the primary domain before it
  inserts its row; a promotion in between may leave a running app with the old domain
  (`AppRuns.PromotionInTheWindowLeavesAStaleApp`; exactly when:
  `AppLifecycle.PromotionIsSafeExactlyWhen`).
- `read_log` is to tolerate bad lines.  One that is JSON but no object raises, and keeps every later
  run from starting (`MigrationLog.ListLineRaises`, `MigrationLog.RaisingLogStaysRaising`; exactly
  when: `MigrationLog.ReadRaisesExactlyWhen`).
- The challenge record is always to be pulled back out.  Publishing comes before the `try`, so a
  publish that raises once it has set the record leaves its values, to be served by the next write
  of the zone files (`CertIssuance.RaisingPublishLeavesItsValues`; exactly when:
  `CertIssuance.RecordEndsEmptyExactlyWhen`).

Two theorems rest on how the program is used today, and fail without it:

- Owners of the operation lock are awaited through a shield and at teardown, so none is cancelled
  before its first step.  `OperationLocks.OneOwnerExactlyWhen` shows the lock's guarantee holds in
  exactly the runs without such a cancellation.
- All certificate acquisitions share one event loop, and the issuance lock is one per loop.
  `CertIssuance.TwoLoopsCollide` shows what a second loop would do.

## Model

| member | source | states |
|---|---|---|
| `ArchiveTheorems.FailOpen` | compute_space/src/compute_space/core/archive_backend.py:1252-1457 | Whichever step raises, before or after its effect and rollback steps included, whatever archive apps write and however their containers exit and are started again, the store the volume points at afterwards holds every object its metadata needs: for every call that starts with row and volume agreeing, during which no app is installed, started or stopped by anybody else, if the volume keeps its name, no archive app is building or starting when the call begins, and every one that has a container, up or not, is called running and can be stopped by the callback (none has one, without a callback) |
| `ArchiveTheorems.SourceIsReclaimedOnlyAfterTheSwitch` | compute_space/src/compute_space/core/archive_backend.py:1437-1457 | An object leaves the source only in a call that succeeds, with the row committed to the destination, volume and mount there, and that very object present at the destination |
| `ArchiveTheorems.SuccessIsComplete` | compute_space/src/compute_space/core/archive_backend.py:1339-1369 | Success leaves the row naming the bucket, region and endpoint asked for, volume and mount there, and no open transaction |
| `ArchiveSuccess.SuccessAgreesAgain` | compute_space/src/compute_space/core/archive_backend.py:1339-1365 | After a success the row holds bucket, region and endpoint of the request, one by one, has keys and no message, and names the volume's own prefix; the place it names is where volume and mount are; nothing is open: so row and volume agree again and the next call may follow |
| `ArchiveSuccess.FailureAgreesAgain` | compute_space/src/compute_space/core/archive_backend.py:1370-1424 | So they do after a failed call whose rollback has worked, unless the flip is left open |
| `ArchiveSuccess.SeriesLosesNothing` | compute_space/src/compute_space/core/archive_backend.py:1173-1457 | Over any number of such calls, to any targets, nothing is ever lost |
| `ArchiveSuccess.FineCallSucceedsExactlyWhen` | compute_space/src/compute_space/core/archive_backend.py:1218-1232 | A call in which nothing raises, and the callback meets no app it cannot stop, succeeds if and only if the row says local, or disabled, or S3 with a bucket and keys; any other row is refused and nothing is touched |
| `ArchiveSuccess.FineCallEmptiesTheSource` | compute_space/src/compute_space/core/archive_backend.py:1437-1457 | And the local store, or the old prefix in a bucket of another name, is then empty |
| `ArchiveSuccess.NameChosen` | compute_space/src/compute_space/core/archive_backend.py:1234-1259 | A volume on S3 keeps its name, and so does a local one with a name of its own; else the name is the first given of the operator's name, the operator's prefix and the zone's own |
| `ArchiveSuccess.KeepsPrefixExactlyWhen` | compute_space/src/compute_space/core/archive_backend.py:1250-1259 | A volume keeps its name if and only if it is on S3, or is not called by the shared default, or is given the shared default again |
| `ArchiveSuccess.FailedFreshCallIsUnmounted` | compute_space/src/compute_space/core/archive_backend.py:1419-1424 | A zone that never had a volume is left unmounted, its row untouched, if nothing raises after the attempt |
| `ArchiveTheorems.OtherZonesAreUntouched` | compute_space/src/compute_space/core/archive_backend.py:1446-1457 | In buckets shared by several zones no prefix but this volume's own ever changes, and a call that fails deletes nothing anywhere |
| `ArchiveTheorems.SameNamedBucketIsNeverReclaimed` | compute_space/src/compute_space/core/archive_backend.py:1446-1449 | The old bucket is kept when the new one has the same name, even at another provider (the comparison is by name alone) |
| `ArchiveTheorems.RollbackRestoresTheSource` | compute_space/src/compute_space/core/archive_backend.py:1370-1424 | If nothing raises once the attempt has, a migrated zone is back on its source, mounted, with its committed row untouched; the connection is left with nothing open, or with the flip if the commit of that is what raised |
| `ArchiveTheorems.FailureKeepsTheRow` | compute_space/src/compute_space/core/archive_backend.py:1364-1424 | What a failed call leaves in the database, exactly: the row is unchanged unless restoring the source raised and the message was saved; then it has the message, and the flip if the commit of that had raised before. Otherwise the transaction left open holds the flip if its commit had raised, and the message if that was written and not committed; else nothing is open |
| `ArchiveTheorems.FailedCallFlipsTheRowExactlyWhen` | compute_space/src/compute_space/core/archive_backend.py:1364-1424 | By the time it returns, a failed call has moved the row to the destination if and only if the commit of the flip raised, restoring the source raised, and the message was saved |
| `ArchiveRequest.FailedRequestFlipsTheRowExactlyWhen` | compute_space/src/compute_space/web/routes/api/archive_backend.py:304-338 | After the whole request, restarts of the quiesced apps over the same connection included, a failed migration has moved the row to the destination if and only if the commit of the flip raised, and either restoring the source raised and the message was saved, or the mount is up again and, of the apps the table had called running, the first whose restart is not refused gets as far as being marked |
| `ArchiveRequest.OneFaultFlipsTheRow` | compute_space/src/compute_space/web/routes/api/archive_backend.py:324-336 | One fault is enough: if just the commit of the flip raises, the request fails, volume and mount are back on the source, and the restart of an app commits the row of the destination |
| `ArchiveRequest.RestartsCommitExactlyWhen` | compute_space/src/compute_space/core/apps.py:486-578 | Restarting apps over a connection with an open transaction commits it if and only if the first restart that is not refused marks its app; nothing is open in the end and nothing else changes |
| `ArchiveRequest.OpenFlipHasRecorded` | compute_space/src/compute_space/web/routes/api/archive_backend.py:302-311 | A migration whose flip is left open has recorded for the restart exactly the archive apps the table called running, in order |
| `ArchiveLoss.FailedCallMayFlipTheRow` | compute_space/src/compute_space/core/archive_backend.py:1388-1400 | That exception is real: two named failing steps after which the call has failed, the volume reads from the local store, and the row says S3 |
| `ArchiveLoss.SafeExactlyWhen` | compute_space/src/compute_space/core/archive_backend.py:1252-1332 | For a migration to another place of a volume not wholly there yet, during which no app is installed, started or stopped by anybody else: nothing is lost, whatever fails, is written, and exits or comes back up, if and only if in the state before the call the chosen name is the volume's own, no archive app is building or starting, and every one that has a container, up or not, is called running and can be stopped by the callback (none has one, without a callback) |
| `ArchiveLoss.StartingAppLosesItsWrites` | compute_space/src/compute_space/core/apps.py:661-664 | With an archive app that is building or starting, the callback or not, what it writes between the copy and the remount is lost |
| `ArchiveLoss.LegacyZoneLosesItsArchive` | compute_space/src/compute_space/core/archive_backend.py:1254-1259 | A zone whose volume still has the shared default name loses its archive in a call in which nothing fails, because the copy reads from the new name's prefix |
| `ArchiveLoss.RenamingLoses` | compute_space/src/compute_space/core/archive_backend.py:1256-1257 | The same for every renamed volume: whatever needed object the destination lacks stays missing there while the volume points there |
| `ArchiveLoss.WritingThroughLoses` | compute_space/src/compute_space/core/archive_backend.py:1204-1211 | What an archive app the callback overlooks, or any without callback, writes between the copy and the remount is lost |
| `ArchiveSafety.MigrationArrives` | compute_space/src/compute_space/core/archive_backend.py:1066-1170 | The copy-then-re-point protocol: no slot shrinks, none outside the plan changes, the source stays complete, and if it succeeds the volume talks to a destination that has all that was at the source |
| `ArchiveSafety.CopyGoes` | compute_space/src/compute_space/core/archive_backend.py:1066-1170 | While nobody writes, a copy that gets through makes the destination complete, and only then does the volume point there |
| `ArchiveSafety.TameScriptGoes` | compute_space/src/compute_space/core/archive_backend.py:1370-1424 | Any series of the other steps, wherever it breaks off, keeps the source complete, and the destination complete while the volume may point there |
| `ArchiveSafety.RollbackGoes` | compute_space/src/compute_space/core/archive_backend.py:1370-1424 | Every rollback, its own failures included, keeps the destination complete as long as the volume may point there |
| `ArchiveTheorems.AttemptRow` | compute_space/src/compute_space/core/archive_backend.py:1339-1369 | What the attempt leaves in the database: the flip committed, nothing, or the flip in an open transaction |
| `ArchiveZone.Zone.ConfigureBackend` | compute_space/src/compute_space/core/archive_backend.py:1173-1457 | The program, assigning fields step by step, ends in the world the specification gives, fails open, and if it succeeds leaves row, volume and mount agreeing on the target |
| `ArchiveZone.Zone.HandleRequest` | compute_space/src/compute_space/web/routes/api/archive_backend.py:282-338 | The request: the migration with the callback if there is something to migrate, then the restarts over a live mount, as specified |
| `ArchiveZone.Zone.RestartAppsById` | compute_space/src/compute_space/core/apps.py:686-693 | One app after the other, each leaving the open transaction alone, rolling it back or committing it; what is open at the end is dropped |
| `ArchiveZone.Zone.MigrateVolume` | compute_space/src/compute_space/core/archive_backend.py:1261-1369 | Install, format if needed, mount, quiesce, copy, re-point, remount, flip: stopping at the first step that raises |
| `ArchiveZone.Zone.QuiesceArchiveApps` | compute_space/src/compute_space/core/apps.py:632-683 | The callback as a step of the migration: the chosen apps are told to stop, all of them recorded, and it fails if one is still seen running |
| `ArchiveZone.Zone.Mount` | compute_space/src/compute_space/core/archive_backend.py:429-484 | A live mount is left alone, whatever store it talks to; otherwise the mount talks to where the volume points |
| `ArchiveZone.Zone.Umount` | compute_space/src/compute_space/core/archive_backend.py:487-519 | Idempotent; a stop that fails is raised |
| `ArchiveZone.Zone.Remount` | compute_space/src/compute_space/core/archive_backend.py:522-533 | Unmount, then mount |
| `ArchiveZone.Zone.EnsureLocalVolumeFormatted` | compute_space/src/compute_space/core/archive_backend.py:752-763 | Formats only a volume that has not been formatted |
| `ArchiveZone.Zone.SyncObjects` | compute_space/src/compute_space/core/archive_backend.py:866-917 | Adds to the destination what is at the source, possibly half of it when it raises, and deletes nothing |
| `ArchiveZone.Zone.ReconfigureVolumeStorage` | compute_space/src/compute_space/core/archive_backend.py:984-1027 | Changes only where the volume points |
| `ArchiveZone.Zone.Rollback` | compute_space/src/compute_space/core/archive_backend.py:1370-1424 | Re-point at the source and remount, or for a zone without volume unmount; a message is recorded only when that raises |
| `ArchiveZone.Zone.Reclaim` | compute_space/src/compute_space/core/archive_backend.py:1437-1479 | The whole local store, or the old bucket's prefix unless it is the same location |
| `S3Reclaim.Bucket.RemoveObjectPrefix` | compute_space/src/compute_space/core/archive_backend.py:1482-1529 | For any paging and any failing request: what is deleted is, in order, the listed keys under the prefix, in requests of 1 to 1000 keys with only the last below 1000; all of them exactly when neither the listing nor a request failed, and none for an empty prefix; so every call is a reclaim in the sense the next rows are about |
| `S3Reclaim.ReclaimClearsExactlyThePrefix` | compute_space/src/compute_space/core/archive_backend.py:1502-1523 | If the listing names every key under the prefix, a finished reclaim leaves exactly the keys outside it |
| `S3Reclaim.EachKeyOnce` | compute_space/src/compute_space/core/archive_backend.py:1510-1521 | Keys listed once are deleted once |
| `ArchiveReclaim.ReclaimIsARemoval` | compute_space/src/compute_space/core/archive_backend.py:1482-1529 | Finished or broken off, a reclaim removes some part of the volume's own slot, as the migration reckons with, and nothing of any other volume's |
| `ArchiveReclaim.FinishedReclaimEmptiesTheSlot` | compute_space/src/compute_space/core/archive_backend.py:1502-1523 | A finished reclaim of a complete listing removes the whole slot |
| `S3Reclaim.VolumeNameIsItsPrefix` | compute_space/src/compute_space/core/archive_backend.py:1502-1506 | A name JuiceFS accepts is its own prefix after the stripping, so only that zone's keys go |
| `S3Reclaim.SlashesDoNotMatter` | compute_space/src/compute_space/core/archive_backend.py:1502-1506 | Slashes around the name do not matter, and of slashes alone nothing is left to delete under |
| `ArchiveQuiesce.StopRunningArchiveApps` | compute_space/src/compute_space/core/apps.py:632-683 | Every app the table calls running is told to stop and recorded; it returns normally if and only if none of them is seen running afterwards |
| `ArchiveQuiesce.ChosenIdsAre` | compute_space/src/compute_space/core/apps.py:656-670 | Recorded for the restart are exactly the apps the table calls running whose manifest uses the archive |
| `ArchiveQuiesce.QuiescedExactlyWhen` | compute_space/src/compute_space/core/apps.py:661-683 | The callback leaves no archive app with a container to write from if and only if every one that has one when it is called is called running by the table and can be stopped |
| `ArchiveQuiesce.RefusesExactlyWhen` | compute_space/src/compute_space/core/apps.py:674-682 | It raises if and only if some running archive app cannot be stopped, and is up and reported as running at that moment |
| `ArchiveQuiesce.StartingAppKeepsWriting` | compute_space/src/compute_space/core/apps.py:661-664 | In any table, an archive app that is building or starting with a container there goes on writing, and does not make the callback raise |
| `AppRuns.RunningAppsServeThePrimary` | compute_space/src/compute_space/core/domains.py:215-255 | Over every interleaving of installs, launches and their failures, promotions, domain changes, archive operations, crashes and boot recoveries, with preparing an environment, marking the row and starting the container as separate steps: an app the table calls running has a container that was given the current primary domain, provided no promotion fell between an install's environment and its row |
| `AppLifecycle.PromotionIsSafeExactlyWhen` | compute_space/src/compute_space/core/apps.py:332-370 | A promotion that goes through keeps the invariant if and only if no install has prepared an environment and not inserted its row yet |
| `AppRuns.PromotionInTheWindowLeavesAStaleApp` | compute_space/src/compute_space/core/apps.py:332-370 | From any such state the install may go on to a running app whose container was given the domain that is no longer primary |
| `AppLifecycle.StepKeepsInv` | compute_space/src/compute_space/core/apps.py:486-578 | Every step, a promotion in that window excepted, keeps: one primary; running apps on it; while a launch is in flight its row is busy or the exclusive lock is held, and what it prepared is for the primary |
| `AppLifecycle.PromotionKeepsInv` | compute_space/src/compute_space/core/domains.py:232-250 | Promotion is refused while any app is busy and demotes running apps, so it neither meets a launch in flight nor leaves a running app behind |
| `AppLifecycle.IdleMeansNoLaunch` | compute_space/src/compute_space/core/domains.py:232-239 | When no app is busy no launch is in flight |
| `AppLifecycle.BootKeepsInv` | compute_space/src/compute_space/core/startup.py:36-96 | The boot check keeps the invariant, also beside launches this process has just begun |
| `AppLaunch.Node.SetPrimaryDomain` | compute_space/src/compute_space/core/domains.py:215-255 | One transaction: the new state is the promotion's, or the old state exactly, with the outcome the lookup and the busy apps determine |
| `AppLaunch.Node.MarkAppStarting` | compute_space/src/compute_space/core/apps.py:475-483 | Starting, with the restart marker kept and any other text cleared |
| `AppLaunch.Node.RunAppImage` | compute_space/src/compute_space/core/apps.py:486-578 | Wherever a launch fails and whether or not cleanup and the last write succeed, its writes are a path of steps, no other row changes, and the row ends running exactly if the app answered, else in an error with the message there is; it names the container whenever that may still be up; if the last write is lost it stays as it was before the launch was marked, or starting after |
| `AppRuns.PromotionMarksLiveApps` | compute_space/src/compute_space/core/domains.py:245-249 | After a promotion an app awaits its restart if and only if it was running or had failed leaving a container; no other row has changed |
| `AppRuns.PromotedExactlyWhen` | compute_space/src/compute_space/core/domains.py:215-239 | A promotion goes through if and only if the host has a row other than that of the primary there is and no app is building, starting or being removed; an app is named as busy if and only if it is one of those |
| `AppRuns.MarkerLasts` | compute_space/src/compute_space/core/apps.py:475-483 | Through every crash, boot and re-mark a marked app stays starting with its marker until it runs or has failed |
| `AppRuns.StepKeepsMarker` | compute_space/src/compute_space/core/apps.py:475-483 | No step takes the marker from a starting app except by ending its launch |
| `BootRecovery.BootQueuesTheMarkedOnce` | compute_space/src/compute_space/core/startup.py:41-96 | At every boot a marked app is queued exactly once, on the synchronous list, and keeps its marker; or an error is recorded for it |
| `BootRecovery.NobodyIsQueuedTwice` | compute_space/src/compute_space/core/startup.py:36-102 | No boot queues an app twice, over both lists and the corrupt-cache rebuilds |
| `BootRecovery.NobodyIsStranded` | compute_space/src/compute_space/core/startup.py:23-107 | Whatever boot leaves building or starting is queued unless this process has just inserted it; whatever it leaves running has a live container |
| `BootRecovery.QueuedExactlyWhen` | compute_space/src/compute_space/core/startup.py:39-96 | An app is queued if and only if it is starting, or running or building without a live container, can be built or started from what there is, and is not being launched by this process; on the synchronous list if and only if a promotion marked it; its job builds if and only if it was building or has no image |
| `BootRecovery.JobsBuildExactlyWhen` | compute_space/src/compute_space/core/startup.py:67-96 | The same for every job on the lists of a whole boot |
| `BootRecovery.ErrorExactlyWhen` | compute_space/src/compute_space/core/startup.py:67-78 | An app ends the loop in an error if and only if it was in one, or wants a restart it cannot be given |
| `BootRecovery.SweptExactlyWhen` | compute_space/src/compute_space/core/startup.py:116-153 | The sweep takes up exactly the apps that failed on the corrupt cache and have a checkout, and leaves them starting without the message |
| `BootRecovery.AppTable.CheckAppStatus` | compute_space/src/compute_space/core/startup.py:23-107 | The loop over the rows and the sweep leave the rows, and return the two lists, that the per-row rule gives |
| `BootRecovery.AppTable.SweepRow` | compute_space/src/compute_space/core/startup.py:39-96 | One row: left, marked, failed or queued as the rule says |
| `BootRecovery.AppTable.RecoverCacheCorruptApps` | compute_space/src/compute_space/core/startup.py:116-153 | Failed builds with the corrupt-cache text and a checkout are cleared and queued for a rebuild |
| `DomainTable.PromotionMovesThePrimary` | compute_space/src/compute_space/core/domains.py:241-244 | The two updates leave exactly the target primary |
| `DomainTable.UpsertKeepsPrimary` | compute_space/src/compute_space/core/domains.py:143-159 | An upsert never changes or adds a primary |
| `DomainTable.UpsertedRows` | compute_space/src/compute_space/core/domains.py:143-159 | An upsert is refused if and only if it would add a second primary; else every row stays and there is one of that name |
| `DomainTable.RemovalKeepsPrimary` | compute_space/src/compute_space/core/domains.py:169-173 | A removal that spares the primary keeps it the only one |
| `DomainTable.SeedingMakesOnePrimary` | compute_space/src/compute_space/core/domains.py:261-280 | Seeding an empty table makes exactly the given domain primary, and no name twice |
| `DomainTable.SeededRows` | compute_space/src/compute_space/core/domains.py:261-280 | Seeding an empty table leaves a row for the host of the primary and of every extra, and no other; a table with rows stays as it is |
| `DomainTable.RemovedRows` | compute_space/src/compute_space/core/domains.py:169-173 | Exactly the non-primary rows of that name go |
| `HostMatching.Match` | compute_space/src/compute_space/core/domains.py:53-63 | The first of the longest owning domains, or none if none owns the host |
| `HostMatching.OwnsExactlyWhen` | compute_space/src/compute_space/core/domains.py:38-46 | A domain owns a host if and only if the host key is its name or ends in a dot and its name; a nameless one owns nothing |
| `HostMatching.OwnersOfEqualLengthAgree` | compute_space/src/compute_space/core/domains.py:38-46 | Two owners of one host of equal length have the same name |
| `HostMatching.MatchIgnoresRowOrder` | compute_space/src/compute_space/core/domains.py:53-63 | The matched name does not depend on the order of the rows |
| `HostMatching.OwnerIsASuffix` | compute_space/src/compute_space/core/domains.py:38-46 | An owner's name is the host key or a dot-separated suffix of it |
| `HostMatching.CaseDoesNotMatter` | compute_space/src/compute_space/core/domains.py:38-46 | Spellings of a host that differ in case alone have the same owners, match and app |
| `HostMatching.CapitalsDoNotMatter` | compute_space/src/compute_space/core/domains.py:45 | A host in capitals has the owners it has in small letters |
| `HostMatching.LinksLeadBackToTheApp` | compute_space/src/compute_space/core/apps.py:1099-1127 | For a dot-free app name, `app.domain[:port]` resolves back to exactly that app, unless that full host is itself a configured domain |
| `HostMatching.LinkKeepsThePort` | compute_space/src/compute_space/core/domains.py:66-74 | The link built on a request to `host:port` ends in that port |
| `HostMatching.PortSuffixExactlyWhen` | compute_space/src/compute_space/core/domains.py:66-74 | Of `host:port` the colon and the digits after it are kept; of anything else nothing is |
| `HostMatching.AppsLiveOnSubdomains` | compute_space/src/compute_space/core/apps.py:1114-1127 | A host taken for an app is a proper subdomain of the domain it matched |
| `HostMatching.AppIsTheLabelInFront` | compute_space/src/compute_space/core/apps.py:1114-1127 | An app is found if and only if the host is its dot-free name in front of the matched domain |
| `HostMatching.BestIsAnOwner` | compute_space/src/compute_space/core/domains.py:53-63 | The scan ends with an owner no other owner is longer than |
| `HostMatching.BestIsTheFirst` | compute_space/src/compute_space/core/domains.py:53-63 | Of several longest owners the scan ends with the first |
| `UpdateWalk.HopsMakeProgress` | openhost_system_agent/src/openhost_system_agent/apply_after_checkout.py:109-151 | Every hop, from every HEAD, brings the destination strictly nearer, measured by eligible tags ahead plus one for a pin not reached |
| `UpdateWalk.WalkIsShort` | openhost_system_agent/src/openhost_system_agent/apply_after_checkout.py:109-151 | No walk is longer than that distance, so each one ends |
| `UpdateWalk.StepIsLowestAhead` | openhost_system_agent/src/openhost_system_agent/apply_after_checkout.py:131-151 | The next step is a lowest eligible tag ahead, else the pin, else nothing |
| `UpdateWalk.AheadExactlyWhen` | openhost_system_agent/src/openhost_system_agent/apply_after_checkout.py:131-137 | A tag is still to come if and only if it is a release above the one HEAD is on, or was last on, that the destination, if there is one, contains |
| `UpdateWalk.NewerReleaseMeansAHop` | openhost_system_agent/src/openhost_system_agent/apply_after_checkout.py:131-140 | With no pin, a host on one version hops as soon as a newer one is released, to a version above its own and no newer than that |
| `UpdateWalk.PinnedWalkEndsAtThePin` | openhost_system_agent/src/openhost_system_agent/apply_after_checkout.py:115-151 | A resolvable pin is where the walk ends, whatever HEAD was; an unresolvable one leaves HEAD alone |
| `UpdateWalk.UnpinnedWalkEndsAtTheNewestRelease` | openhost_system_agent/src/openhost_system_agent/apply_after_checkout.py:109-151 | Unpinned, the walk ends with the newest release as its base, on its own commit if any hop was taken |
| `UpdateWalk.PinIsTheLastHop` | openhost_system_agent/src/openhost_system_agent/apply_after_checkout.py:141-151 | The pinned ref is taken at most once, as the last hop, and everything before it is a tag |
| `UpdateWalk.TagHopsAscend` | openhost_system_agent/src/openhost_system_agent/apply_after_checkout.py:131-140 | Tag hops strictly ascend in version order through eligible tags |
| `UpdateWalk.NoTagIsSkipped` | openhost_system_agent/src/openhost_system_agent/apply_after_checkout.py:109-151 | No eligible tag is jumped over: each one's version is stepped on, unless the walk stops short on the pinned commit |
| `UpdateWalk.Agent.ApplyAfterCheckout` | openhost_system_agent/src/openhost_system_agent/apply_after_checkout.py:154-195 | Migrate, install, then hop and hand over to the checked-out code, over the log file |
| `UpdateWalk.Agent.Update` | openhost_system_agent/src/openhost_system_agent/update.py:320-367 | The first hop is taken before any migration runs, the rest by the checked-out code |
| `UpdateWalk.UpdateEndsAtTheDestinationsVersion` | openhost_system_agent/src/openhost_system_agent/update.py:320-367 | An update that ends well ran exactly the code of the walk's landings, in order, and leaves the host at the destination ref's latest registry version, however the two files share the walk |
| `UpdateWalk.UpdateRunsEveryRefItVisits` | openhost_system_agent/src/openhost_system_agent/apply_after_checkout.py:154-195 | Whether it ends well or not, an update has run the migrations and the install of every ref it visited, in order, and failed exactly at the last of them; with nothing to walk to it does nothing and fails |
| `UpdateWalk.SmoothUpdateSucceedsExactlyWhenVersionsClimb` | openhost_system_agent/src/openhost_system_agent/migrations/runner.py:27-47 | When nothing outside fails, an update ends well if and only if no ref on the route knows fewer versions than the host has reached by then |
| `ReleaseTags.SortTagsSorts` | openhost_system_agent/src/openhost_system_agent/apply_after_checkout.py:68-74 | Release tags come in version order, none lost, none invented |
| `ReleaseTags.LessTotal` | openhost_system_agent/src/openhost_system_agent/apply_after_checkout.py:68-70 | Version keys are totally ordered |
| `ReleaseTags.VersionOfTag` | openhost_system_agent/src/openhost_system_agent/apply_after_checkout.py:68-70 | Every version, written in decimal with dots, is a release tag whose key is that version |
| `ReleaseTags.ReleaseTagExactlyWhen` | openhost_system_agent/src/openhost_system_agent/apply_after_checkout.py:45-48 | A release tag is a v followed by fields of digits joined by dots, and nothing else is |
| `ReleaseTags.TagsCompareAsNumbers` | openhost_system_agent/src/openhost_system_agent/apply_after_checkout.py:68-74 | Of two tags with one field the lower is that of the lower number: v9 comes before v10 |
| `ReleaseTags.TagsCompareAsVersions` | openhost_system_agent/src/openhost_system_agent/apply_after_checkout.py:68-74 | Of any two tags the lower is the one whose version is a prefix, or smaller at the first field where they differ |
| `ReleaseTags.LeadingZero` | openhost_system_agent/src/openhost_system_agent/apply_after_checkout.py:68-70 | Leading zeros do not matter |
| `MigrationLog.AppendReadsBack` | openhost_system_agent/src/openhost_system_agent/migrations/migration_log.py:53-64 | For every existing content, a torn or newline-less last line included, the log read after an append is the log read before plus the entry |
| `MigrationLog.TornWriteIsAllOrNothing` | openhost_system_agent/src/openhost_system_agent/migrations/migration_log.py:20-43 | A write torn at any character either left the whole entry or left nothing that is read |
| `MigrationLog.ReadLog` | openhost_system_agent/src/openhost_system_agent/migrations/migration_log.py:20-43 | Line by line: blank and malformed lines are skipped, a line that is JSON but no object raises |
| `MigrationLog.ReadRaisesExactlyWhen` | openhost_system_agent/src/openhost_system_agent/migrations/migration_log.py:20-43 | Reading raises if and only if some line of the file is JSON but no object; every other bad line is tolerated |
| `MigrationLog.ListLineRaises` | openhost_system_agent/src/openhost_system_agent/migrations/migration_log.py:32-34 | One line holding the empty list is enough |
| `MigrationLog.RaisingLogStaysRaising` | openhost_system_agent/src/openhost_system_agent/migrations/migration_log.py:53-64 | No later append makes such a log readable again |
| `MigrationLog.LogFile.AppendEntry` | openhost_system_agent/src/openhost_system_agent/migrations/migration_log.py:53-64 | A newline is added first exactly when the file does not end with one |
| `MigrationLog.NewlineReadsAlike` | openhost_system_agent/src/openhost_system_agent/migrations/migration_log.py:53-64 | The newline added in front changes nothing that is read |
| `MigrationRunner.OneRun` | openhost_system_agent/src/openhost_system_agent/migrations/runner.py:21-88 | A run keeps the history contiguous, logs what it applied, and ends at the newest version if it finishes |
| `MigrationRunner.RunIsLogged` | openhost_system_agent/src/openhost_system_agent/migrations/runner.py:50-88 | A run logs one success with its own timestamp for every migration applied, in order, and then: nothing if it finished; for a failure its version, the error it raised and when; after a crash at most the entry that was being written |
| `MigrationRunner.RefusedExactlyWhen` | openhost_system_agent/src/openhost_system_agent/migrations/runner.py:25-47 | A run is refused if and only if the registry is not 2, 3, 4 and so on, no success is logged, or the last one is of a version beyond the registry |
| `MigrationRunner.FailedRunResumes` | openhost_system_agent/src/openhost_system_agent/migrations/runner.py:27-88 | A failed run is resumed, by any registry that has grown, at exactly the migration that failed |
| `MigrationRunner.CrashedRunResumes` | openhost_system_agent/src/openhost_system_agent/migrations/runner.py:50-88 | After a crash the resumed migration is the one that was running, unless its success had been written |
| `MigrationRunner.HistoryStaysContiguous` | openhost_system_agent/src/openhost_system_agent/migrations/runner.py:21-88 | Over any number of runs with failures and crashes the log only grows and its successes increase by one |
| `MigrationRunner.Apply` | openhost_system_agent/src/openhost_system_agent/migrations/runner.py:21-88 | The runner over the log file does what the specification of a run says, and what it adds to the file tells of every migration, the failed one and its error included; over a log that cannot be read it refuses and writes nothing |
| `MigrationRunner.RunMigration` | openhost_system_agent/src/openhost_system_agent/migrations/runner.py:50-88 | One migration adds its success, or its failure with the error raised; if the process dies nothing, or the entry being written |
| `PortAllocator.ResolvePortMappings` | compute_space/src/compute_space/core/ports.py:78-116 | Succeeds if and only if the explicit ports are available and distinct and there are as many usable ports left as automatic entries, whatever the shuffle; keeps explicit entries as they were and gives no port twice |
| `PortAllocator.ResolutionKeepsEverySlot` | compute_space/src/compute_space/core/ports.py:93-116 | The multiset of (label, container port) is kept |
| `PortAllocator.FindFreeHostPort` | compute_space/src/compute_space/core/ports.py:119-143 | A usable unclaimed candidate, or the proof that there is none |
| `PortAllocator.AvailableExactlyWhen` | compute_space/src/compute_space/core/ports.py:25-75 | A port may be asked for if and only if it can be bound and no other app uses it; it may be handed out if and only if besides it is not the app's own main port |
| `PortAllocator.ResolvedPortsAreFree` | compute_space/src/compute_space/core/ports.py:93-143 | Every port of a resolution can be bound and is used by no other app |
| `PortAllocator.NoTwoAppsEverShareAPort` | compute_space/src/compute_space/core/ports.py:25-143 | Over every sequence of installs, syncs that succeed or fail, and removals, two apps never share a host port, main or mapped, and no app maps one twice |
| `PortAllocator.SyncKeepsExclusive` | compute_space/src/compute_space/core/apps.py:581-629 | A reload's sync keeps the table exclusive, the committed half of a failed one included |
| `PortAllocator.SyncKeepsKnownPorts` | compute_space/src/compute_space/core/apps.py:600-629 | The same of every sync in a history of the table; no other app changes |
| `PortAllocator.AskedPortsAreUsed` | compute_space/src/compute_space/core/apps.py:324-330 | Whatever the shuffle, a resolution leaves every label for which a port is asked on that port |
| `PortAllocator.InstallKeepsExclusive` | compute_space/src/compute_space/core/apps.py:319-369 | An install keeps the table exclusive |
| `PortAllocator.PortTable.AllocatePort` | compute_space/src/compute_space/core/ports.py:11-22 | The lowest usable port of the range, or none exactly when there is none |
| `PortAllocator.PortTable.InsertAndDeploy` | compute_space/src/compute_space/core/apps.py:319-369 | Succeeds if and only if a main port is left and the mappings resolve; then the app has exactly the manifest's labels, each on the port the caller asked for, else on the one the manifest fixes; otherwise nothing changes |
| `PortAllocator.PortTable.SyncPortMappings` | compute_space/src/compute_space/core/apps.py:581-629 | After a sync that succeeds the app has exactly the manifest's labels, each known one on the port it had and each new one on the port the manifest fixes; after one that is refused the labels dropped by the manifest are gone and nothing else has changed |
| `PortAllocator.OwnMainPortMayBeMapped` | compute_space/src/compute_space/core/apps.py:319-330 | What is not promised: an install may map the port it was itself given as main port |
| `CertIssuance.ChallengeRecordIsItsOwn` | compute_space/src/compute_space/core/tls/acquire_cert_broker.py:98-123 | In every interleaving on one event loop, from publish to clear the provider's record holds exactly the acquisition's own values |
| `CertIssuance.RecordEndsEmptyExactlyWhen` | compute_space/src/compute_space/core/tls/acquire_cert_broker.py:98-123 | Once all acquisitions have ended, by success or exception, the provider has no record left if and only if no publish that raised has left one that nothing replaced since |
| `CertIssuance.FilesShowTheRecordAsLastWritten` | compute_space/src/compute_space/core/dns/coredns_provider/interface.py:124-170 | What is served is at any time the record as it was when the files were last written, by a publish, a clear or a change of zones, whichever writes have failed since; on any number of loops |
| `CertIssuance.ChallengeIsServed` | compute_space/src/compute_space/core/dns/coredns_provider/interface.py:124-149 | While no write misfires, what is served from publish to clear is the acquisition's own values |
| `CertIssuance.RecordEndsEmpty` | compute_space/src/compute_space/core/tls/acquire_cert_broker.py:105-123 | In particular neither the record nor what is served has anything left when no write misfired |
| `CertIssuance.RaisingPublishLeavesItsValues` | compute_space/src/compute_space/core/dns/coredns_provider/interface.py:136-140 | A publish that raises between setting the record and writing the files leaves its values in the table, and the next change of zones serves them |
| `CertIssuance.OneAtATimePerLoop` | compute_space/src/compute_space/core/tls/provision.py:58-63 | Two acquisitions of one event loop are never past its lock together |
| `CertIssuance.TwoLoopsCollide` | compute_space/src/compute_space/core/tls/provision.py:21-30 | Why one event loop is needed: the lock is per loop, so on two loops one acquisition's record could be another's |
| `CertIssuance.Issuer.IssuanceLock` | compute_space/src/compute_space/core/tls/provision.py:24-30 | The loop's lock is made the first time it is asked for, and no other is touched |
| `CertIssuance.Issuer.AcquireCertForDomain` | compute_space/src/compute_space/core/tls/provision.py:33-63 | An undisturbed acquisition is a path of steps; however it goes the lock ends free, and once it has polled the record is gone, and what is served with it if writing the files works |
| `CertPolling.PollUntilIssued` | compute_space/src/compute_space/core/tls/acquire_cert_broker.py:144-176 | Sleeps never sum past the timeout; each is the interval the backoff has reached, at most the larger of the first and the cap, but for a last one the deadline cuts short; the outcome is that of the last answer, all before it pending; with a factor of at least 1 and a first interval up to the cap, at most 1 + timeout/initial calls are made, more answers than that never run out, and a timeout has really elapsed |
| `CertPolling.CallsAreBounded` | compute_space/src/compute_space/core/tls/acquire_cert_broker.py:159-176 | With a factor of at least 1 and an initial interval up to the cap, at most 1 + timeout/initial calls are made |
| `CertPolling.IntervalIsAPower` | compute_space/src/compute_space/core/tls/acquire_cert_broker.py:159-176 | With a factor of at least 1 and an initial interval up to the cap, the interval before each sleep is the first one times that power of the factor, or the cap |
| `OperationLocks.OneOwnerExactlyWhen` | compute_space/src/compute_space/core/operation_locks.py:43-68 | After any run the lock is held exactly while one owner is unfinished, if and only if no owner was cancelled before its first step |
| `OperationLocks.QuietAfterWaiting` | compute_space/src/compute_space/core/operation_locks.py:37-40 | When waiting for operations returns, no owner is unfinished and every callback has run, and the lock is free if and only if no owner was cancelled before its first step |
| `OperationLocks.LockHeldWhileOneOwnerWorks` | compute_space/src/compute_space/core/operation_locks.py:43-68 | At every point of a run up to which none was, the lock is held exactly while one owner is unfinished |
| `OperationLocks.ConcurrentStartChangesNothing` | compute_space/src/compute_space/core/operation_locks.py:51-54 | A start beside an unfinished owner changes nothing; any other start makes an owner |
| `OperationLocks.FailureIsLoggedOnce` | compute_space/src/compute_space/core/operation_locks.py:16-34 | A failing operation detached once is logged exactly once, whether detached before it finishes, after, or between finishing and its callback; no other is logged |
| `OperationLocks.AwaitedOperationIsNotLogged` | compute_space/src/compute_space/core/operation_locks.py:22-26 | An operation never detached is never logged |
| `OperationLocks.CancellingTooEarlyLeaks` | compute_space/src/compute_space/core/operation_locks.py:55-66 | Why the hypothesis is needed: cancelling the owner before its first step would leave the lock held by nobody |
| `OperationLocks.LeakStays` | compute_space/src/compute_space/core/operation_locks.py:51-54 | and for good: every later start is refused |
| `OperationLocks.Operations.StartExclusiveOperation` | compute_space/src/compute_space/core/operation_locks.py:43-68 | None without a change if the lock is held; if no asyncio task can be created the lock is free again |
| `OperationLocks.Operations.RunAsOwner` | compute_space/src/compute_space/core/operation_locks.py:55-59 | However the operation ends the lock is released |
| `OperationLocks.Operations.OperationDone` | compute_space/src/compute_space/core/operation_locks.py:22-26 | The task leaves both sets, and a failure is logged exactly if it had been detached before |
| `OperationLocks.Operations.DetachOperation` | compute_space/src/compute_space/core/operation_locks.py:29-34 | Logs at once what is done, remembers what is not |
| `DowntimePorts.AcquirePortsDuringDowntime` | openhost_system_agent/src/openhost_system_agent/updater/server.py:300-344 | No bind is tried before a probe has found the service down; every later turn tries each wanted port not yet held, and takes it if it is free; the turn that gets 443, or without a certificate 80, is the last, and returns everything bound; nothing is returned, and all closed, exactly in the first turn in which the service is back, the deadline for binding has passed or the wait for a downtime is over; when the lifetime is over what is bound is returned; and the turns before the downtime, after it, and in all are bounded by the three deadlines |
| `DowntimePorts.CloseBoth` | openhost_system_agent/src/openhost_system_agent/updater/server.py:362-368 | Everything held is closed |
| `ServiceDefaults.RowOrderDoesNotMatter` | compute_space/src/compute_space/core/service_interface/services.py:95-115 | The default provider does not depend on the order of the rows |
| `ServiceDefaults.NoDefaultMeansNoProvider` | compute_space/src/compute_space/core/service_interface/services.py:73-92 | There is none if and only if nobody is picked, the router has no builtin, and no app provides the service |
| `ServiceDefaults.UnpickedDefaultIsTheOldest` | compute_space/src/compute_space/core/service_interface/services.py:95-115 | An unpicked service is served by a provider installed no later than any other |
| `ServiceDefaults.TiesGoToTheLaterVersion` | compute_space/src/compute_space/core/service_interface/services.py:105-115 | Among providers installed in the same second the default has the later version, and of one version the greater id |
| `ServiceDefaults.ServiceTables.SetDefault` | compute_space/src/compute_space/core/service_interface/services.py:118-138 | Succeeds if and only if the id provides the service, and then reads back as that id, the router included; no other service's default changes |
| `ServiceDefaults.RegisteringKeepsPicks` | compute_space/src/compute_space/core/service_interface/services.py:27-41 | Registering an app again never changes an owner's pick or a builtin's hold |
| `ServiceDefaults.LaterInstallMovesNothing` | compute_space/src/compute_space/core/service_interface/services.py:95-115 | Installing a strictly later provider never moves a service off the app that serves it |
| `ServiceDefaults.RegisteredRows` | compute_space/src/compute_space/core/service_interface/services.py:35-41 | Registering gives the app exactly the services its manifest names, one row a version, and leaves other apps' rows alone |
| `ServiceDefaults.RegisteringKeepsTheKey` | compute_space/src/compute_space/core/service_interface/services.py:37-41 | No row comes twice |
| `ServiceDefaults.TwoVersionsAreTwoRows` | compute_space/src/compute_space/core/service_interface/services.py:37-41 | A service named at two versions keeps both rows |
| `ServiceDefaults.ServiceTables.RegisterServicesProvidedByApp` | compute_space/src/compute_space/core/service_interface/services.py:27-41 | The loop of inserts ends in the specified table |
| `ServiceDefaults.ServiceTables.ClearDefault` | compute_space/src/compute_space/core/service_interface/services.py:141-144 | The pick is gone and nothing else |

## Left out

Assumptions the theorems name, and what the model does not capture:

- ArchiveTheorems.FailOpen: speaks of one call from an agreeing row and volume; ArchiveSuccess.SeriesLosesNothing lets calls follow one another, but not one after a rollback that itself failed.
- ArchiveTheorems.FailureKeepsTheRow: a commit is atomic, so one that raises has written nothing; `configured_at` and the key values themselves are not modelled.
- ArchiveLoss.SafeExactlyWhen: the app table is as it was when the call began, so no app is installed, started, reloaded or stopped by another route during the call; the launch of an app that is building or starting may bring its container up at any moment, but the status it then gets is not seen by the callback.
- ArchiveRequest.FailedRequestFlipsTheRowExactlyWhen: the request's own work on the row is its last; what a restarted app's launch writes to other tables is not modelled.
- ArchiveZone.Zone.SyncObjects: objects are immutable values, so overwriting and byte comparison are not modelled.
- ArchiveZone.Zone.Mount: automatic restarts of the mount unit by systemd between two steps are not modelled.
- S3Reclaim.Bucket.RemoveObjectPrefix: a raising request deletes any part of its own keys; per-key errors reported inside a successful answer are ignored, as in the code.
- AppRuns.RunningAppsServeThePrimary: the boot check is one step, so a launch finishing during it is not modelled, nor is an app this very process inserted whose checkout has vanished before it. A launch that fails has its failure written a second time by the thread that made it; a new launch of the same app begun between the two writes is not modelled.
- AppLifecycle.StepKeepsInv: the reload, stop and removal routes and the storage guard are not steps.
- AppLaunch.Node.SetPrimaryDomain: the names of busy apps are a set, not sorted; the row-count checks after the two updates cannot fail inside the transaction and are left out.
- DomainTable.SeedingMakesOnePrimary: the primary is spelled in lower case, as the table's schema requires; TLS, mDNS and certificate columns are not modelled.
- UpdateWalk.HopsMakeProgress: assumes one release tag per commit, that checking out a ref lands on its commit, and that `describe` on a release-tagged commit returns that tag; a branch named like a tag and a `describe` that lands on another kind of tag are excluded.
- UpdateWalk.Agent.Update: locking, service restarts and progress reporting around the walk are not modelled.
- MigrationLog.AppendReadsBack: the JSON library is a parameter with the few laws stated in `Lawful`; text is characters, not bytes.
- PortAllocator.NoTwoAppsEverShareAPort: the set of bindable ports is fixed during one operation; an app's own main port against its own mapped ports is not claimed.
- CertIssuance.FilesShowTheRecordAsLastWritten: the files of all zones are one cell, so a write that raises half-way through them has happened or has not; the directory-based ACME client is not modelled.
- CertPolling.PollUntilIssued: takes a finite list of answers and says `Unfinished` when they run out, because with a factor below 1 the loop need not end; rounding of floating-point seconds is not modelled.
- OperationLocks.OneOwnerExactlyWhen: cancellation after the first step is an ordinary way for the operation to end.
- DowntimePorts.AcquirePortsDuringDowntime: bounds turns of the loop; a probe or bind that blocks for long stretches a turn. Serving on the sockets is not modelled.
- ServiceDefaults.RowOrderDoesNotMatter: version comparison is a parameter that ranks texts; app ids are sequences of character codes; endpoints are not modelled, so a row is its key.

Not modelled at all, because it would add no property beyond what the outside tool does, or only easy members:

- subprocess, HTTP and file plumbing, Caddyfile and page text, CLI output, OAuth clients, diagnostics
- tokens, passwords, keys and permission review text
- archive attachment at boot, meta-dump listing and credential probes
