/** Exactly when a migration is safe: what `FailOpen` asks for cannot be dropped. */
module ArchiveLoss {
  import opened AppStatus
  import opened ArchiveQuiesce
  import opened Options
  import opened ArchiveWorld
  import opened ArchiveMigration
  import opened ArchiveSafety
  import opened ArchiveTheorems

  type Providers = (string, string) -> string

  /** No step raises.  After step `k` every launch brings its container up, podman starts all others
      again, and the archive apps among them write `o`; otherwise nobody is launched or writes. */
  ghost predicate OneLateWrite(w: World, e: Env, k: nat, o: Obj) {
    && FineFrom(e, 0) && (forall i: nat :: i != k + 1 ==> e.traffic(i) == {} && e.arrivals(i) == {})
    && e.traffic(k + 1) == {o} && e.arrivals(k + 1) == Coming(w.apps) && w.live + Coming(w.apps) <= e.up(k + 1)
  }

  /** Such an environment, with no container up before. */
  function Undisturbed(provider: Providers, podman: Podman, w: World, k: nat, o: Obj): (e: Env)
    ensures OneLateWrite(w, e, k, o) && forall i: nat :: i <= k ==> e.up(i) == {}
  {
    Env(_ => Fine, i => if i == k + 1 then {o} else {}, i => if i == k + 1 then Coming(w.apps) else {},
        i => if i == k + 1 then w.live + Coming(w.apps) else {}, provider, podman)
  }

  function Calm(provider: Providers, podman: Podman): Env {
    Env(_ => Fine, _ => {}, _ => {}, _ => {}, provider, podman)
  }

  /** The metadata needs `o`, and the destination does not have it. */
  predicate Missing(w: World, o: Obj, dst: Place) {
    w.formatted && o in w.needed && o !in At(w, dst, w.prefix)
  }

  ghost predicate QuietFrom(e: Env, clock: nat) {
    FineFrom(e, clock) && forall i: nat :: i >= clock ==> e.traffic(i) == {} && e.arrivals(i) == {}
  }

  /** The callback never finds a running app that it cannot stop. */
  ghost predicate Unblocked(w: World, e: Env) {
    DistinctContainers(w.apps) && forall i: nat :: !Blocked(w.live * e.up(i), w.apps, e.podman)
  }

  /** Steps that bring nothing under the metadata's prefix at the destination. */
  predicate Harmless(a: Action, dst: Place, prefix: string) { a.Sync? ==> a.to != Slot(dst, prefix) }

  lemma StepStaysMissing(w: World, e: Env, o: Obj, dst: Place, a: Action)
    requires Missing(w, o, dst) && QuietFrom(e, w.clock) && Harmless(a, dst, w.prefix) && a != Quiesce
    ensures var d := Do(w, e, a); Missing(d.world, o, dst) && d.ok && d.world.clock >= w.clock
  {
  }

  lemma QuiesceStaysMissing(w: World, e: Env, o: Obj, dst: Place)
    requires Missing(w, o, dst) && QuietFrom(e, w.clock) && Unblocked(w, e)
    ensures var d := AfterQuiesce(w, e); Missing(d.world, o, dst) && d.ok && d.world.clock >= w.clock
  {
    assert Arrived(w, e) == w.live;
    RefusesExactlyWhen(w.live, e.up(w.clock), w.apps, e.podman);
  }

  lemma FewerBlock(up: set<Cid>, more: set<Cid>, rows: seq<App>, podman: Podman)
    requires up <= more
    ensures Blocked(up, rows, podman) ==> Blocked(more, rows, podman)
  {
    forall r | r in rows && SeenRunning(up, r, podman) ensures SeenRunning(more, r, podman) {
    }
  }

  /** Containers that are removed block nobody. */
  lemma StaysUnblocked(w: World, e: Env, a: Action)
    requires Unblocked(w, e) && QuietFrom(e, w.clock)
    ensures Unblocked(Do(w, e, a).world, e)
  {
    StepAdmitsOnlyArrivals(w, e, a);
    assert Arrived(w, e) == w.live;
    var v := Do(w, e, a).world;
    forall i: nat ensures !Blocked(v.live * e.up(i), v.apps, e.podman) {
      FewerBlock(v.live * e.up(i), w.live * e.up(i), w.apps, e.podman);
    }
  }

  /** When nothing raises and nobody writes, such a script runs through and the object stays missing. */
  lemma {:induction false} ScriptStaysMissing(w: World, e: Env, o: Obj, dst: Place, script: Script)
    requires Missing(w, o, dst) && QuietFrom(e, w.clock)
    requires forall a :: a in script ==> Harmless(a, dst, w.prefix)
    requires Quiesce in script ==> Unblocked(w, e)
    ensures var r := Exec(w, e, script); Missing(r.world, o, dst) && r.ok && r.world.clock >= w.clock
    decreases |script|
  {
    if script != [] {
      var a := script[0];
      if a == Quiesce { QuiesceStaysMissing(w, e, o, dst); } else { StepStaysMissing(w, e, o, dst, a); }
      StepStaysFormatted(w, e, a);
      if Quiesce in script { StaysUnblocked(w, e, a); }
      ScriptStaysMissing(Do(w, e, a).world, e, o, dst, script[1..]);
    }
  }

  lemma ReclaimStaysMissing(w: World, e: Env, o: Obj, dst: Place, was: Row, t: Target, volume: string)
    requires Missing(w, o, dst) && QuietFrom(e, w.clock)
    ensures var r := AfterReclaim(w, e, was, t, volume); Missing(r, o, dst) && r.pointsAt == w.pointsAt
  {
  }

  /** A copy that gets through has pointed the volume at its destination. */
  lemma CopyPoints(w: World, e: Env, src: Place, dst: Place, volume: string)
    ensures var c := Exec(w, e, Copy(src, dst, volume)); c.ok ==> c.world.pointsAt == dst
  {
    CopySteps(w, e, src, dst, volume);
  }

  /** The attempt on a volume that exists, as its three parts. */
  lemma AttemptParts(w: World, e: Env, t: Target, quiesce: bool)
    requires w.row.backend == Local || w.row.backend == S3
    ensures var volume := ChooseVolume(w.row, t);
            var g := Exec(w, e, Gather(w.row, volume, quiesce));
            var c := Exec(g.world, e, Copy(Source(w.row, e), Destination(t, e), volume));
            g.ok && c.ok ==>
              Attempted(w, e, t, quiesce) == Exec(c.world, e, Switch(Flipped(w.row, t, volume)))
    ensures Attempted(w, e, t, quiesce).ok ==> Attempted(w, e, t, quiesce).world.pointsAt == Destination(t, e)
  {
    var volume := ChooseVolume(w.row, t);
    var copy, last := Copy(Source(w.row, e), Destination(t, e), volume), Switch(Flipped(w.row, t, volume));
    ExecAppends(w, e, Gather(w.row, volume, quiesce), copy + last);
    var g := Exec(w, e, Gather(w.row, volume, quiesce));
    ExecAppends(g.world, e, copy, last);
    CopyPoints(g.world, e, Source(w.row, e), Destination(t, e), volume);
    SwitchMounts(Exec(g.world, e, copy).world, e, Flipped(w.row, t, volume));
  }

  /** Renaming a volume that exists copies from a prefix its metadata does not use. */
  lemma RenamingLoses(w: World, e: Env, t: Target, quiesce: bool, o: Obj)
    requires Agrees(w, e) && !KeepsPrefix(w, t) && !Refuses(w.row) && w.row.backend != Disabled
    requires quiesce ==> Unblocked(w, e)
    requires Missing(w, o, Destination(t, e)) && QuietFrom(e, w.clock)
    ensures !NothingLost(AfterConfigure(w, e, t, quiesce).world)
  {
    var dst := Destination(t, e);
    ScriptStaysMissing(w, e, o, dst, Attempt(w.row, e, t, quiesce));
    AttemptParts(w, e, t, quiesce);
    ReclaimStaysMissing(Attempted(w, e, t, quiesce).world, e, o, dst, w.row, t, ChooseVolume(w.row, t));
  }

  /** Between copy and remount the mount is still the source's: a write reaches only the source. */
  lemma CopyMissesLateWrites(w: World, e: Env, o: Obj, src: Place, dst: Place, volume: string)
    requires Exposed(w, src, dst, volume, o) && src != dst
    requires FineFrom(e, w.clock) && e.traffic(w.clock) == {} && e.arrivals(w.clock) == {}
    requires e.traffic(w.clock + 1) == {o} && e.arrivals(w.clock + 1) == Coming(w.apps)
    requires w.live + Coming(w.apps) <= e.up(w.clock + 1)
    ensures var c := Exec(w, e, Copy(src, dst, volume));
            c.ok && Missing(c.world, o, dst) && c.world.prefix == volume && c.world.clock == w.clock + 2
  {
    CopySteps(w, e, src, dst, volume);
    var a := AfterSync(w, e, Slot(src, volume), Slot(dst, volume));
    assert Arrived(w, e) == w.live;
    assert a.ok && o !in At(a.world, dst, volume) && a.world.clock == w.clock + 1;
    assert a.world.mounted == Some(src) && a.world.formatted && a.world.prefix == volume;
    assert a.world.apps == w.apps && a.world.live == w.live;
    WhoeverMayWriteDoes(a.world, e);
  }

  lemma WhoeverMayWriteDoes(w: World, e: Env)
    requires MayWrite(w) && e.arrivals(w.clock) == Coming(w.apps)
    requires w.live + Coming(w.apps) <= e.up(w.clock)
    ensures WriterLeft(Arrived(w, e) * e.up(w.clock), w.apps)
  {
    var r :| r in w.apps && (Writes(w.live, r) || ComesUp(r));
    assert ComesUp(r) ==> r.next in Coming(w.apps);
    assert Writes(Arrived(w, e) * e.up(w.clock), r);
  }

  /** The step at which the copy runs when nothing raises. */
  function CopyClock(w: World, quiesce: bool): nat {
    w.clock + (if w.installed then 0 else 1) + (if w.mounted.Some? then 0 else 1) + (if quiesce then 1 else 0)
  }

  /** `w'` is `w` with the mount up, and the apps quiesced if that was asked for. */
  predicate Begun(w: World, w': World, podman: Podman, quiesce: bool, clock: nat) {
    && w'.formatted && w'.prefix == w.prefix && w'.clock == clock && w'.apps == w.apps
    && w'.live == (if quiesce then Left(w.live, w.apps, podman) else w.live)
    && w'.recorded == (if quiesce then ChosenIds(w.apps) else w.recorded)
    && w'.mounted == (if w.mounted.Some? then w.mounted else Some(w.pointsAt))
  }

  /** Nothing raises before step `clock`, nobody comes up and nobody writes. */
  ghost predicate CalmUntil(e: Env, clock: nat) {
    forall i: nat :: i < clock ==> e.faults(i).Fine? && e.traffic(i) == {} && e.arrivals(i) == {}
  }

  /** One calm step: the clock moves and nothing else but what the step is for. */
  predicate CalmStep(w: World, w': World, s: Slot, took: nat) {
    && w'.formatted == w.formatted && w'.prefix == w.prefix && w'.pointsAt == w.pointsAt && w'.apps == w.apps
    && w'.clock == w.clock + took && Objects(w'.stores, s) == Objects(w.stores, s)
  }

  lemma CalmTick(w: World, e: Env, s: Slot)
    requires e.traffic(w.clock) == {} && e.arrivals(w.clock) == {}
    ensures CalmStep(w, Tick(w, e), s, 1) && Tick(w, e).live == w.live && Tick(w, e).mounted == w.mounted
    ensures Tick(w, e).installed == w.installed && Tick(w, e).recorded == w.recorded
  {
    assert Arrived(w, e) == w.live;
  }

  lemma CalmInstall(w: World, e: Env, s: Slot)
    requires w.installed || CalmUntil(e, w.clock + 1)
    ensures var o := AfterInstall(w, e);
            && o.ok && CalmStep(w, o.world, s, if w.installed then 0 else 1)
            && o.world.live == w.live && o.world.mounted == w.mounted && o.world.recorded == w.recorded
  {
    if !w.installed { CalmTick(w, e, s); }
  }

  lemma CalmMount(w: World, e: Env, s: Slot)
    requires (w.mounted.Some? || CalmUntil(e, w.clock + 1)) && w.formatted
    ensures var o := AfterMount(w, e);
            && o.ok && CalmStep(w, o.world, s, if w.mounted.Some? then 0 else 1)
            && o.world.live == w.live && o.world.recorded == w.recorded
            && o.world.mounted == (if w.mounted.Some? then w.mounted else Some(w.pointsAt))
  {
    if w.mounted == None { CalmTick(w, e, s); }
  }

  lemma CalmQuiesce(w: World, e: Env, s: Slot)
    requires CalmUntil(e, w.clock + 1) && DistinctContainers(w.apps)
    requires !Blocked(w.live * e.up(w.clock), w.apps, e.podman)
    ensures var o := AfterQuiesce(w, e);
            && o.ok && CalmStep(w, o.world, s, 1)
            && o.world.live == Left(w.live, w.apps, e.podman) && o.world.mounted == w.mounted
            && o.world.recorded == ChosenIds(w.apps)
  {
    CalmTick(w, e, s);
    RefusesExactlyWhen(w.live, e.up(w.clock), w.apps, e.podman);
  }

  /** A volume that is formatted is not formatted again. */
  lemma EnsuringDoesNothing(w: World, e: Env, volume: string, local: bool, rest: Script)
    requires w.formatted
    ensures Exec(w, e, (if local then [EnsureFormatted(volume)] else []) + rest) == Exec(w, e, rest)
  {
    if local {
      Peel(w, e, EnsureFormatted(volume), rest);
    } else {
      assert [] + rest == rest;
    }
  }

  lemma MountAndQuiesceSteps(w: World, e: Env, quiesce: bool)
    requires AfterMount(w, e).ok
    ensures Exec(w, e, [Action.Mount] + if quiesce then [Quiesce] else [])
         == if quiesce then AfterQuiesce(AfterMount(w, e).world, e) else AfterMount(w, e)
  {
    var rest := if quiesce then [Quiesce] else [];
    Peel(w, e, Action.Mount, rest);
    if quiesce {
      assert rest == [Quiesce] + [];
      Peel(AfterMount(w, e).world, e, Quiesce, []);
    }
  }

  /** What comes before the copy, on a volume that is formatted. */
  lemma GatherSteps(w: World, e: Env, volume: string, quiesce: bool)
    requires w.formatted && AfterInstall(w, e).ok && AfterMount(AfterInstall(w, e).world, e).ok
    ensures var b := AfterMount(AfterInstall(w, e).world, e);
            Exec(w, e, Gather(w.row, volume, quiesce)) == if quiesce then AfterQuiesce(b.world, e) else b
  {
    var ensured := if w.row.backend == Local then [EnsureFormatted(volume)] else [];
    var rest := [Action.Mount] + if quiesce then [Quiesce] else [];
    assert Gather(w.row, volume, quiesce) == [Install] + (ensured + rest);
    Peel(w, e, Install, ensured + rest);
    var a := AfterInstall(w, e).world;
    EnsuringDoesNothing(a, e, volume, w.row.backend == Local, rest);
    MountAndQuiesceSteps(a, e, quiesce);
  }

  lemma MountedCalmly(w: World, e: Env, quiesce: bool, s: Slot)
    requires w.formatted && CalmUntil(e, CopyClock(w, quiesce))
    ensures AfterInstall(w, e).ok
    ensures var b := AfterMount(AfterInstall(w, e).world, e);
            && b.ok && Begun(w, b.world, e.podman, false, CopyClock(w, false))
            && Objects(b.world.stores, s) == Objects(w.stores, s)
  {
    CalmInstall(w, e, s);
    CalmMount(AfterInstall(w, e).world, e, s);
  }

  lemma GatheredCalmly(w: World, e: Env, volume: string, quiesce: bool, s: Slot)
    requires w.formatted && CalmUntil(e, CopyClock(w, quiesce))
    requires DistinctContainers(w.apps)
    requires quiesce ==> !Blocked(w.live * e.up(CopyClock(w, quiesce) - 1), w.apps, e.podman)
    ensures var g := Exec(w, e, Gather(w.row, volume, quiesce));
            && g.ok && Begun(w, g.world, e.podman, quiesce, CopyClock(w, quiesce))
            && Objects(g.world.stores, s) == Objects(w.stores, s)
  {
    MountedCalmly(w, e, quiesce, s);
    GatherSteps(w, e, volume, quiesce);
    if quiesce { CalmQuiesce(AfterMount(AfterInstall(w, e).world, e).world, e, s); }
  }

  /** Who is not hushed may write after the callback. */
  lemma SomebodyIsLeft(w: World, w': World, podman: Podman, quiesce: bool, clock: nat)
    requires !Hushed(w, podman, quiesce) && Begun(w, w', podman, quiesce, clock) && DistinctContainers(w.apps)
    ensures MayWrite(w')
  {
    var r :| r in w.apps && r.usesArchive
             && (InLaunch(r.status) || (Names(w.live, r) && !(quiesce && Stoppable(r, podman))));
    if r.container.Some? { LeftOf(w.live, w.apps, podman, r); }
    assert Writes(w'.live, r) || ComesUp(r);
  }

  /** What an app writes between copy and remount is lost: one the callback overlooks, or any if
      there is no callback. */
  lemma WritingThroughLoses(w: World, e: Env, t: Target, quiesce: bool, o: Obj)
    requires Agrees(w, e) && KeepsPrefix(w, t) && !Refuses(w.row) && w.formatted
    requires OneLateWrite(w, e, CopyClock(w, quiesce), o) && !Hushed(w, e.podman, quiesce)
    requires quiesce ==> !Blocked(w.live * e.up(CopyClock(w, quiesce) - 1), w.apps, e.podman)
    requires w.row.backend == Local || w.row.backend == S3
    requires Source(w.row, e) != Destination(t, e)
    requires o !in At(w, Source(w.row, e), w.prefix) && o !in At(w, Destination(t, e), w.prefix)
    ensures !NothingLost(AfterConfigure(w, e, t, quiesce).world)
  {
    var src, dst, volume := Source(w.row, e), Destination(t, e), ChooseVolume(w.row, t);
    LateWriteComesLate(w, e, CopyClock(w, quiesce), o);
    GatheredExposed(w, e, src, dst, volume, quiesce, o);
    var g := Exec(w, e, Gather(w.row, volume, quiesce)).world;
    LateWriteIsMissing(w, g, e, src, dst, volume, CopyClock(w, quiesce), o);
    var c := Exec(g, e, Copy(src, dst, volume));
    AttemptParts(w, e, t, quiesce);
    ScriptStaysMissing(c.world, e, o, dst, Switch(Flipped(w.row, t, volume)));
    ReclaimStaysMissing(Attempted(w, e, t, quiesce).world, e, o, dst, w.row, t, volume);
  }

  /** A mount of the source, through which some archive app may write, and `o` nowhere yet. */
  predicate Exposed(w: World, src: Place, dst: Place, volume: string, o: Obj) {
    && w.formatted && w.prefix == volume && MayWrite(w) && w.mounted == Some(src)
    && o !in At(w, src, volume) && o !in At(w, dst, volume)
  }

  lemma GatheredExposed(w: World, e: Env, src: Place, dst: Place, volume: string, quiesce: bool, o: Obj)
    requires w.formatted && w.prefix == volume && DistinctContainers(w.apps) && w.pointsAt == src
    requires w.mounted.Some? ==> w.mounted == Some(src)
    requires CalmUntil(e, CopyClock(w, quiesce)) && !Hushed(w, e.podman, quiesce)
    requires quiesce ==> !Blocked(w.live * e.up(CopyClock(w, quiesce) - 1), w.apps, e.podman)
    requires o !in At(w, src, volume) && o !in At(w, dst, volume)
    ensures var g := Exec(w, e, Gather(w.row, volume, quiesce));
            && g.ok && Exposed(g.world, src, dst, volume, o)
            && g.world.clock == CopyClock(w, quiesce) && g.world.apps == w.apps && g.world.live <= w.live
  {
    GatheredCalmly(w, e, volume, quiesce, Slot(src, volume));
    GatheredCalmly(w, e, volume, quiesce, Slot(dst, volume));
    SomebodyIsLeft(w, Exec(w, e, Gather(w.row, volume, quiesce)).world, e.podman, quiesce, CopyClock(w, quiesce));
    LeftShrinks(w.live, w.apps, e.podman);
  }

  lemma LateWriteComesLate(w: World, e: Env, k: nat, o: Obj)
    requires OneLateWrite(w, e, k, o)
    ensures CalmUntil(e, k) && FineFrom(e, k) && QuietFrom(e, k + 2)
    ensures e.traffic(k) == {} && e.arrivals(k) == {}
  {
  }

  lemma LateWriteIsMissing(w: World, g: World, e: Env, src: Place, dst: Place, volume: string, k: nat, o: Obj)
    requires Exposed(g, src, dst, volume, o) && src != dst && OneLateWrite(w, e, k, o)
    requires g.clock == k && g.apps == w.apps && g.live <= w.live
    ensures var c := Exec(g, e, Copy(src, dst, volume));
            c.ok && Missing(c.world, o, dst) && c.world.prefix == volume && QuietFrom(e, c.world.clock)
  {
    LateWriteComesLate(w, e, k, o);
    CopyMissesLateWrites(g, e, o, src, dst, volume);
  }

  /** Nothing is lost whatever the steps do, whichever containers come up, go down and come back, and
      whatever running apps write. */
  ghost predicate SafeFor(w: World, t: Target, quiesce: bool, provider: Providers, podman: Podman) {
    forall e: Env :: e.provider == provider && e.podman == podman ==>
      NothingLost(AfterConfigure(w, e, t, quiesce).world)
  }

  /** A migration to another place, of a volume with an object `have` that place does not have yet,
      is safe exactly when the state before the call says so: the volume keeps its name, no
      archive app is building or starting, and every one that has a container, up or not, is called
      running and can be stopped by the callback (none has one, if there is no callback). */
  lemma SafeExactlyWhen(w: World, t: Target, quiesce: bool, provider: Providers, podman: Podman, have: Obj, unseen: Obj)
    requires var e := Calm(provider, podman);
             && Agrees(w, e) && !Refuses(w.row) && (w.row.backend == Local || w.row.backend == S3)
             && Source(w.row, e) != Destination(t, e) && Missing(w, have, Destination(t, e))
             && unseen !in At(w, Source(w.row, e), w.prefix) && unseen !in At(w, Destination(t, e), w.prefix)
    ensures SafeFor(w, t, quiesce, provider, podman) <==> SafeToCall(w, t, quiesce, podman)
  {
    if SafeToCall(w, t, quiesce, podman) {
      forall e: Env | e.provider == provider && e.podman == podman
        ensures NothingLost(AfterConfigure(w, e, t, quiesce).world) {
        FailOpen(w, e, t, quiesce);
      }
    } else if !KeepsPrefix(w, t) {
      RenamingLoses(w, Calm(provider, podman), t, quiesce, have);
    } else {
      WritingThroughLoses(w, Undisturbed(provider, podman, w, CopyClock(w, quiesce), unseen), t, quiesce, unseen);
    }
  }

  /** In particular an archive app that is building or starting loses what it writes, callback or
      not, unless another app makes the callback give up. */
  lemma StartingAppLosesItsWrites(w: World, e: Env, t: Target, quiesce: bool, r: App, o: Obj)
    requires Agrees(w, e) && KeepsPrefix(w, t) && !Refuses(w.row) && w.formatted
    requires r in w.apps && ComesUp(r) && OneLateWrite(w, e, CopyClock(w, quiesce), o)
    requires quiesce ==> !Blocked(w.live * e.up(CopyClock(w, quiesce) - 1), w.apps, e.podman)
    requires w.row.backend == Local || w.row.backend == S3
    requires Source(w.row, e) != Destination(t, e)
    requires o !in At(w, Source(w.row, e), w.prefix) && o !in At(w, Destination(t, e), w.prefix)
    ensures !NothingLost(AfterConfigure(w, e, t, quiesce).world)
  {
    WritingThroughLoses(w, e, t, quiesce, o);
  }

  function LocalZone(volumeName: string, needed: set<Obj>): World {
    World(map[Slot(LocalDisk, volumeName) := needed], true, volumeName, needed, LocalDisk, Some(LocalDisk), true,
          Row(Local, "", "", "", "", false, volumeName, ""), None, [], {}, [], 0)
  }

  /** A zone still called by the shared default loses its archive when nothing at all goes wrong. */
  lemma LegacyZoneLosesItsArchive(provider: Providers, podman: Podman, o: Obj)
    ensures var w, t := LocalZone(DEFAULT_VOLUME_NAME, {o}), Target("archive", "eu", "", "", "", "oh-zone-1");
            var r := AfterConfigure(w, Calm(provider, podman), t, true);
            Agrees(w, Calm(provider, podman)) && !NothingLost(r.world)
  {
    var w, t := LocalZone(DEFAULT_VOLUME_NAME, {o}), Target("archive", "eu", "", "", "", "oh-zone-1");
    RenamingLoses(w, Calm(provider, podman), t, true, o);
  }

  /** Only the two steps named raise, and leave nothing behind. */
  function Failing(provider: Providers, podman: Podman, i: nat, j: nat): Env {
    Env(k => if k == i || k == j then Raises(false, {}) else Fine, _ => {}, _ => {}, _ => {}, provider, podman)
  }

  lemma FlipIsLeftOpen(provider: Providers, podman: Podman, w: World, t: Target, e: Env)
    requires w == LocalZone("oh-zone-1", {}) && t == Target("archive", "eu", "", "", "", "oh-zone-1")
    requires e == Failing(provider, podman, 5, 7)
    ensures var p := Attempted(w, e, t, false);
            !p.ok && p.world.clock == 6 && p.world.pending == Some(Flipped(w.row, t, "oh-zone-1"))
            && p.world.mounted.Some? && Steady(p.world)
  {
    var volume := "oh-zone-1";
    GatheredCalmly(w, e, volume, false, Slot(LocalDisk, volume));
    ScriptLeavesDatabase(w, e, Gather(w.row, volume, false));
    var g := Exec(w, e, Gather(w.row, volume, false)).world;
    FineCopy(g, e, LocalDisk, Destination(t, e), volume);
    ScriptLeavesDatabase(g, e, Copy(LocalDisk, Destination(t, e), volume));
    AttemptParts(w, e, t, false);
    BrokenSwitch(Exec(g, e, Copy(LocalDisk, Destination(t, e), volume)).world, e, Flipped(w.row, t, volume));
  }

  predicate Steady(w: World) { w.formatted && w.apps == [] }

  /** The same volume, `took` steps later. */
  predicate Later(w: World, w': World, took: nat) {
    w'.formatted == w.formatted && w'.apps == w.apps && w'.clock == w.clock + took
  }

  lemma FineUmount(w: World, e: Env)
    requires w.mounted.Some? && e.faults(w.clock).Fine?
    ensures var o := AfterUmount(w, e);
            o.ok && Later(w, o.world, 1) && o.world.mounted == None && o.world.pending == w.pending
  {
  }

  lemma FineMount(w: World, e: Env)
    requires w.mounted == None && w.formatted && e.faults(w.clock).Fine?
    ensures var o := AfterMount(w, e);
            o.ok && Later(w, o.world, 1) && o.world.mounted.Some? && o.world.pending == w.pending
  {
  }

  lemma BrokenPersist(w: World, e: Env, row: Row)
    requires e.faults(w.clock).Fine? && !e.faults(w.clock + 1).Fine?
    ensures var o := Exec(w, e, Persist(row));
            !o.ok && Later(w, o.world, 2) && o.world.mounted == w.mounted && o.world.pending == Some(row)
  {
    PersistSteps(w, e, row);
  }

  lemma FineRestart(w: World, e: Env, rest: Script)
    requires w.formatted && w.mounted.Some? && e.faults(w.clock).Fine? && e.faults(w.clock + 1).Fine?
    ensures var m := AfterMount(AfterUmount(w, e).world, e);
            && Later(w, m.world, 2) && m.world.mounted.Some? && m.world.pending == w.pending
            && Exec(w, e, [Umount] + ([Mount] + rest)) == Exec(m.world, e, rest)
  {
    Peel(w, e, Umount, [Mount] + rest);
    FineUmount(w, e);
    Peel(AfterUmount(w, e).world, e, Mount, rest);
    FineMount(AfterUmount(w, e).world, e);
  }

  /** Restarting the mount works, and the flip is written, but its commit raises. */
  lemma BrokenSwitch(w: World, e: Env, flip: Row)
    requires w.formatted && w.mounted.Some? && w.pending == None
    requires e.faults(w.clock).Fine? && e.faults(w.clock + 1).Fine? && e.faults(w.clock + 2).Fine?
    requires !e.faults(w.clock + 3).Fine?
    ensures var p := Exec(w, e, Switch(flip));
            !p.ok && Later(w, p.world, 4) && p.world.pending == Some(flip) && p.world.mounted.Some?
  {
    assert Switch(flip) == [Umount] + ([Mount] + Persist(flip));
    FineRestart(w, e, Persist(flip));
    BrokenPersist(AfterMount(AfterUmount(w, e).world, e).world, e, flip);
  }

  lemma FineSync(w: World, e: Env, from: Slot, to: Slot)
    requires e.faults(w.clock).Fine?
    ensures var o := AfterSync(w, e, from, to); o.ok && Later(w, o.world, 1) && o.world.mounted == w.mounted
  {
  }

  lemma FineRepoint(w: World, e: Env, place: Place)
    requires w.formatted && e.faults(w.clock).Fine?
    ensures var o := AfterRepoint(w, e, place); o.ok && Later(w, o.world, 1) && o.world.mounted == w.mounted
  {
  }

  lemma FineCopy(w: World, e: Env, src: Place, dst: Place, volume: string)
    requires w.formatted && e.faults(w.clock).Fine? && e.faults(w.clock + 1).Fine?
    ensures var c := Exec(w, e, Copy(src, dst, volume)); c.ok && Later(w, c.world, 2) && c.world.mounted == w.mounted
  {
    var from, to := Slot(src, volume), Slot(dst, volume);
    CopySteps(w, e, src, dst, volume);
    FineSync(w, e, from, to);
    FineRepoint(AfterSync(w, e, from, to).world, e, dst);
  }

  lemma BrokenRestore(provider: Providers, podman: Podman, w: World, e: Env)
    requires e == Failing(provider, podman, 5, 7) && w.clock == 6 && w.mounted.Some? && Steady(w)
    ensures var u := Exec(w, e, Restore(Local, LocalDisk));
            !u.ok && u.world.clock == 8 && u.world.pointsAt == LocalDisk
  {
    assert Restore(Local, LocalDisk) == [Repoint(LocalDisk)] + ([Umount] + [Mount]);
    Peel(w, e, Repoint(LocalDisk), [Umount] + [Mount]);
    var b := Do(w, e, Repoint(LocalDisk));
    Peel(b.world, e, Umount, [Mount]);
  }

  lemma FinePersist(w: World, e: Env, row: Row)
    requires FineFrom(e, w.clock)
    ensures Exec(w, e, Persist(row)).ok
  {
    PersistSteps(w, e, row);
  }

  lemma OpenFlipIsCommittedWithTheMessage(provider: Providers, podman: Podman, w: World, e: Env)
    requires e == Failing(provider, podman, 5, 7) && w.clock == 6
    requires w.pending.Some? && w.mounted.Some? && Steady(w)
    ensures var r := AfterRollback(w, e, Local, LocalDisk);
            r.row == w.pending.value.(message := RESTART_NEEDED) && r.pointsAt == LocalDisk
  {
    BrokenRestore(provider, podman, w, e);
    var u := Exec(w, e, Restore(Local, LocalDisk)).world;
    var row := Seen(u).(message := RESTART_NEEDED);
    FinePersist(u, e, row);
    PersistMovesNothing(u, e, row);
    RollbackRow(w, e, Local, LocalDisk);
  }

  /** The exception to "a failed call leaves the row alone" is real: the commit raises (step 5),
      then the unmount of the rollback (step 7).  The call fails, the volume reads from the local
      store, and the row says S3. */
  lemma FailedCallMayFlipTheRow(provider: Providers, podman: Podman)
    ensures var w, t := LocalZone("oh-zone-1", {}), Target("archive", "eu", "", "", "", "oh-zone-1");
            var r := AfterConfigure(w, Failing(provider, podman, 5, 7), t, false);
            && Agrees(w, Failing(provider, podman, 5, 7))
            && !r.ok && r.world.row.backend == S3 && r.world.pointsAt == LocalDisk
  {
    var w, t := LocalZone("oh-zone-1", {}), Target("archive", "eu", "", "", "", "oh-zone-1");
    var e := Failing(provider, podman, 5, 7);
    FlipIsLeftOpen(provider, podman, w, t, e);
    OpenFlipIsCommittedWithTheMessage(provider, podman, Attempted(w, e, t, false).world, e);
  }
}
