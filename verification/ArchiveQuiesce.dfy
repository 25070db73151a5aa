/**
 `stop_running_archive_apps` (core/apps.py): the callback that stops archive apps before a
 migration, what it overlooks, and when it refuses to go on.
 */
module ArchiveQuiesce {
  import opened AppStatus
  import opened Options

  /** `container`: the one the row names; `next`: the one a launch under way would bring up. */
  datatype App = App(id: AppId, status: Status, usesArchive: bool, container: Option<Cid>, next: Cid)

  /** Which stops work, and which containers an inspection reports truthfully (any error reads as
      "not running"). */
  datatype Podman = Podman(stops: Cid -> bool, answers: Cid -> bool)

  /** Rows are chosen by their status in the table. */
  predicate Chosen(r: App) { r.status == Running && r.usesArchive }

  /** A chosen app whose container is up and reported. */
  predicate SeenRunning(up: set<Cid>, r: App, podman: Podman) {
    Chosen(r) && r.container.Some? && r.container.value in up && podman.answers(r.container.value)
  }

  predicate SomeSeenRunning(up: set<Cid>, rows: seq<App>, podman: Podman) {
    exists r :: r in rows && SeenRunning(up, r, podman)
  }

  function ChosenIds(rows: seq<App>): seq<AppId> {
    if rows == [] then []
    else ChosenIds(rows[..|rows| - 1]) + if Chosen(rows[|rows| - 1]) then [rows[|rows| - 1].id] else []
  }

  /** Containers left once the chosen apps have been told to stop, which removes them. */
  function Left(live: set<Cid>, rows: seq<App>, podman: Podman): set<Cid> {
    if rows == [] then live
    else
      var r := rows[|rows| - 1];
      var rest := Left(live, rows[..|rows| - 1], podman);
      if Chosen(r) && r.container.Some? && podman.stops(r.container.value) then rest - {r.container.value} else rest
  }

  /** Some archive app has a container among these. */
  predicate WriterLeft(live: set<Cid>, rows: seq<App>) { exists r :: r in rows && Writes(live, r) }

  predicate Writes(live: set<Cid>, r: App) { r.usesArchive && (Names(live, r) || Launched(live, r)) }

  /** The container of the row is among these. */
  predicate Names(live: set<Cid>, r: App) { r.container.Some? && r.container.value in live }

  /** The launch of the app has brought its container up already. */
  predicate Launched(live: set<Cid>, r: App) { InLaunch(r.status) && r.next in live }

  /** No container belongs to two rows, and a launch brings up a new one. */
  predicate DistinctContainers(rows: seq<App>) {
    && (forall i, j :: 0 <= i < j < |rows| && rows[i].container.Some? ==> rows[i].container != rows[j].container)
    && forall i, j :: 0 <= i < |rows| && 0 <= j < |rows| ==> rows[i].container != Some(rows[j].next)
  }

  /** Stopping the container of one row changes nothing of how those before it are seen. */
  lemma StoppingOneHidesNoOther(live: set<Cid>, up: set<Cid>, rows: seq<App>, i: nat, podman: Podman)
    requires DistinctContainers(rows) && i < |rows| && rows[i].container.Some?
    ensures forall r :: r in rows[..i] ==>
              (SeenRunning((live - {rows[i].container.value}) * up, r, podman) <==> SeenRunning(live * up, r, podman))
  {
  }

  /** The loop of the callback, over the containers that exist, of which some are up.  It returns
      normally only if no chosen app is seen running afterwards; whether it raises or not, every
      chosen app has been recorded for the restart. */
  method StopRunningArchiveApps(start: set<Cid>, up: set<Cid>, rows: seq<App>, podman: Podman)
    returns (ok: bool, recorded: seq<AppId>, live: set<Cid>)
    requires DistinctContainers(rows)
    ensures recorded == ChosenIds(rows) && live == Left(start, rows, podman)
    ensures ok <==> !SomeSeenRunning(live * up, rows, podman)
  {
    recorded, live := [], start;
    var stillRunning: seq<App> := [];
    for i := 0 to |rows|
      invariant recorded == ChosenIds(rows[..i]) && live == Left(start, rows[..i], podman)
      invariant forall r :: r in stillRunning ==> r in rows[..i] && SeenRunning(live * up, r, podman)
      invariant forall r :: r in rows[..i] && SeenRunning(live * up, r, podman) ==> r in stillRunning
    {
      var r := rows[i];
      assert rows[..i + 1][..i] == rows[..i] && rows[..i + 1] == rows[..i] + [r];
      if !Chosen(r) { continue; }
      if r.container.Some? && podman.stops(r.container.value) {
        StoppingOneHidesNoOther(live, up, rows, i, podman);
        live := live - {r.container.value};
      }
      recorded := recorded + [r.id];
      if r.container.Some? && r.container.value in live * up && podman.answers(r.container.value) {
        stillRunning := stillRunning + [r];
      }
    }
    assert rows[..|rows|] == rows;
    ok := stillRunning == [];
    if !ok { assert stillRunning[0] in stillRunning; }
  }

  /** Recorded are exactly the archive apps the table calls running. */
  lemma {:induction false} ChosenIdsAre(rows: seq<App>, id: AppId)
    ensures id in ChosenIds(rows) <==> exists r :: r in rows && r.status == Running && r.usesArchive && r.id == id
  {
    if rows != [] {
      var init, last := rows[..|rows| - 1], rows[|rows| - 1];
      assert rows == init + [last];
      ChosenIdsAre(init, id);
    }
  }

  /** A container survives the callback unless its own app is chosen and its stop works. */
  lemma {:induction false} LeftOf(live: set<Cid>, rows: seq<App>, podman: Podman, r: App)
    requires DistinctContainers(rows) && r in rows && r.container.Some?
    ensures r.container.value in Left(live, rows, podman) <==>
            r.container.value in live && !(Chosen(r) && podman.stops(r.container.value))
  {
    var n := |rows| - 1;
    if r in rows[..n] {
      LeftOf(live, rows[..n], podman, r);
      var i :| 0 <= i < n && rows[i] == r;
    } else {
      assert r == rows[n];
      OthersLeaveAlone(live, rows[..n], podman, r.container.value);
    }
  }

  lemma {:induction false} OthersLeaveAlone(live: set<Cid>, rows: seq<App>, podman: Podman, cid: Cid)
    requires forall i :: 0 <= i < |rows| ==> rows[i].container != Some(cid)
    ensures cid in Left(live, rows, podman) <==> cid in live
  {
    if rows != [] {
      OthersLeaveAlone(live, rows[..|rows| - 1], podman, cid);
    }
  }

  lemma {:induction false} LeftShrinks(live: set<Cid>, rows: seq<App>, podman: Podman)
    ensures Left(live, rows, podman) <= live
  {
    if rows != [] {
      LeftShrinks(live, rows[..|rows| - 1], podman);
    }
  }

  /** What the callback gets rid of: an archive app the table calls running, whose stop works. */
  predicate Stoppable(r: App, podman: Podman) {
    r.status == Running && r.container.Some? && podman.stops(r.container.value)
  }

  /** The container of a launch under way survives the callback. */
  lemma LaunchSurvives(live: set<Cid>, rows: seq<App>, podman: Podman, r: App)
    requires DistinctContainers(rows) && r in rows
    ensures r.next in Left(live, rows, podman) <==> r.next in live
  {
    OthersLeaveAlone(live, rows, podman, r.next);
  }

  /** The callback leaves no archive app with a container to write from exactly if every one that
      has one when it is called is called running by the table and can be stopped. */
  lemma QuiescedExactlyWhen(live: set<Cid>, rows: seq<App>, podman: Podman)
    requires DistinctContainers(rows)
    ensures !WriterLeft(Left(live, rows, podman), rows) <==>
            forall r :: r in rows && Writes(live, r) ==> Stoppable(r, podman)
  {
    var left := Left(live, rows, podman);
    forall r | r in rows ensures Writes(left, r) <==> Writes(live, r) && !Stoppable(r, podman) {
      if r.container.Some? { LeftOf(live, rows, podman, r); }
      LaunchSurvives(live, rows, podman, r);
    }
    if r :| r in rows && Writes(live, r) && !Stoppable(r, podman) {
      assert Writes(left, r);
    }
  }

  /** A running archive app that cannot be stopped, and of which podman says so. */
  predicate Blocked(up: set<Cid>, rows: seq<App>, podman: Podman) {
    exists r :: r in rows && SeenRunning(up, r, podman) && !Stoppable(r, podman)
  }

  /** The callback raises exactly if some running app cannot be stopped and is reported. */
  lemma RefusesExactlyWhen(live: set<Cid>, up: set<Cid>, rows: seq<App>, podman: Podman)
    requires DistinctContainers(rows)
    ensures SomeSeenRunning(Left(live, rows, podman) * up, rows, podman) <==> Blocked(live * up, rows, podman)
  {
    var left := Left(live, rows, podman) * up;
    forall r | r in rows
      ensures SeenRunning(left, r, podman) <==> SeenRunning(live * up, r, podman) && !Stoppable(r, podman) {
      if r.container.Some? { LeftOf(live, rows, podman, r); }
    }
    if r :| r in rows && SeenRunning(live * up, r, podman) && !Stoppable(r, podman) {
      assert SeenRunning(left, r, podman);
    }
  }

  /** In any table, an archive app that is building or starting with a container there goes on
      writing, and the callback does not notice. */
  lemma StartingAppKeepsWriting(live: set<Cid>, up: set<Cid>, rows: seq<App>, podman: Podman, r: App)
    requires DistinctContainers(rows) && r in rows && InLaunch(r.status) && Writes(live, r)
    ensures WriterLeft(Left(live, rows, podman), rows)
    ensures SomeSeenRunning(Left(live, rows, podman) * up, rows, podman) <==> Blocked(live * up, rows, podman)
    ensures !SeenRunning(Left(live, rows, podman) * up, r, podman)
  {
    QuiescedExactlyWhen(live, rows, podman);
    RefusesExactlyWhen(live, up, rows, podman);
  }
}
