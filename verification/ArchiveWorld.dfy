/**
 What one archive migration works on (core/archive_backend.py): object stores, the JuiceFS
 volume over them, its mount, the `archive_backend` row, and the effect of each outside step.

 Every step may raise, before or after its effect; a copy or a removal may raise half-way.
 Between any two steps a launch under way may bring its container up, any container may exit and
 be started again by podman's restart policy, and archive apps that are up write through the mount.
 */
module ArchiveWorld {
  import opened AppStatus
  import opened ArchiveQuiesce
  import opened Options

  datatype Obj = Obj(key: string)

  datatype Place = LocalDisk | Bucket(name: string, provider: string)

  /** Objects live under `<place>/<prefix>/`. */
  datatype Slot = Slot(place: Place, prefix: string)

  type Stores = map<Slot, set<Obj>>

  datatype Backend = Local | Disabled | S3 | Other

  /** An empty string is the source's NULL, which its `or` treats alike. */
  datatype Row = Row(backend: Backend, bucket: string, region: string, endpoint: string, prefix: string,
                     hasKeys: bool, volumeName: string, message: string)

  /**
   `prefix`: the name the volume was formatted under; its metadata keys objects by it for good.
   `needed`: the objects the metadata refers to.
   `mounted`: the store the running FUSE process talks to.
   `pending`: what the open transaction would make of the row.
   `apps`: the app table as it is during the call.
   `live`: the containers that exist; podman starts one that exits again.
   `recorded`: the apps the callback has put down for the restart; none before the call.
   */
  datatype World = World(stores: Stores, formatted: bool, prefix: string, needed: set<Obj>, pointsAt: Place,
                         mounted: Option<Place>, installed: bool, row: Row, pending: Option<Row>,
                         apps: seq<App>, live: set<Cid>, recorded: seq<AppId>, clock: nat)

  datatype Fault = Fine | Raises(applied: bool, part: set<Obj>)

  /** How the outside behaves: the fate of each step; what running apps write, which containers are
      brought up by a launch, and which are up, when it comes; which provider a region and endpoint
      reach; and podman. */
  datatype Env = Env(faults: nat -> Fault, traffic: nat -> set<Obj>, arrivals: nat -> set<Cid>, up: nat -> set<Cid>,
                     provider: (string, string) -> string, podman: Podman)

  datatype Outcome = Outcome(world: World, ok: bool)

  function Objects(stores: Stores, slot: Slot): set<Obj> {
    if slot in stores then stores[slot] else {}
  }

  /** The containers that launches of archive apps may bring up. */
  function Coming(apps: seq<App>): set<Cid> { set r | r in apps && r.usesArchive && InLaunch(r.status) :: r.next }

  function Arrived(w: World, e: Env): set<Cid> { w.live + (e.arrivals(w.clock) * Coming(w.apps)) }

  /** Containers come up and go down; archive apps that are up write through the mount, under the
      volume's own prefix. */
  function Tick(w: World, e: Env): World {
    var v := w.(clock := w.clock + 1, live := Arrived(w, e));
    if WriterLeft(v.live * e.up(w.clock), v.apps) && w.mounted.Some? then
      var slot := Slot(w.mounted.value, w.prefix);
      v.(needed := w.needed + e.traffic(w.clock),
         stores := w.stores[slot := Objects(w.stores, slot) + e.traffic(w.clock)])
    else v
  }

  /** One step with an all-or-nothing effect. */
  function Take(before: World, after: World, fault: Fault): Outcome {
    match fault
    case Fine => Outcome(after, true)
    case Raises(applied, _) => Outcome(if applied then after else before, false)
  }

  function AfterInstall(w: World, e: Env): Outcome {
    if w.installed then Outcome(w, true)
    else var v := Tick(w, e); Take(v, v.(installed := true), e.faults(w.clock))
  }

  /** `juicefs format`; on a volume that exists it changes nothing. */
  function AfterFormat(w: World, e: Env, place: Place, name: string): Outcome {
    var v := Tick(w, e);
    Take(v, if v.formatted then v else v.(formatted := true, prefix := name, pointsAt := place), e.faults(w.clock))
  }

  function AfterEnsureFormatted(w: World, e: Env, name: string): Outcome {
    if w.formatted then Outcome(w, true) else AfterFormat(w, e, LocalDisk, name)
  }

  /** A live mount is left alone, whatever it talks to; an unformatted volume cannot be mounted. */
  function AfterMount(w: World, e: Env): Outcome {
    if w.mounted.Some? then Outcome(w, true)
    else
      var v := Tick(w, e);
      if !v.formatted then Outcome(v, false) else Take(v, v.(mounted := Some(v.pointsAt)), e.faults(w.clock))
  }

  function AfterUmount(w: World, e: Env): Outcome {
    if w.mounted == None then Outcome(w, true)
    else var v := Tick(w, e); Take(v, v.(mounted := None), e.faults(w.clock))
  }

  /** The callback: it stops the apps it chooses, and raises if it sees one still running. */
  function AfterQuiesce(w: World, e: Env): Outcome {
    var v := Tick(w, e);
    var stopped := v.(live := Left(v.live, v.apps, e.podman), recorded := ChosenIds(v.apps));
    match e.faults(w.clock)
    case Fine => Outcome(stopped, !SomeSeenRunning(stopped.live * e.up(w.clock), stopped.apps, e.podman))
    case Raises(applied, _) => Outcome(if applied then stopped else v, false)
  }

  /** The objects of `from` that a copy with this fate has brought over. */
  function Brought(stores: Stores, from: Slot, fault: Fault): set<Obj> {
    match fault
    case Fine => Objects(stores, from)
    case Raises(applied, part) => if applied then Objects(stores, from) else Objects(stores, from) * part
  }

  function Copied(stores: Stores, from: Slot, to: Slot, fault: Fault): Stores {
    stores[to := Objects(stores, to) + Brought(stores, from, fault)]
  }

  /** `juicefs sync`: adds what the source lacks nothing of, deletes nothing; may stop half-way. */
  function AfterSync(w: World, e: Env, from: Slot, to: Slot): Outcome {
    var v := Tick(w, e);
    Outcome(v.(stores := Copied(v.stores, from, to, e.faults(w.clock))), e.faults(w.clock).Fine?)
  }

  /** `juicefs config`: the volume reads from another store from the next mount on. */
  function AfterRepoint(w: World, e: Env, place: Place): Outcome {
    var v := Tick(w, e);
    if !v.formatted then Outcome(v, false) else Take(v, v.(pointsAt := place), e.faults(w.clock))
  }

  /** One `UPDATE` inside the open transaction. */
  function AfterUpdate(w: World, e: Env, row: Row): Outcome {
    var v := Tick(w, e);
    if e.faults(w.clock).Fine? then Outcome(v.(pending := Some(row)), true) else Outcome(v, false)
  }

  /** A commit that raises leaves the transaction open. */
  function AfterCommit(w: World, e: Env): Outcome {
    var v := Tick(w, e);
    if !e.faults(w.clock).Fine? then Outcome(v, false)
    else if v.pending == None then Outcome(v, true)
    else Outcome(v.(row := v.pending.value, pending := None), true)
  }

  /** The row as this connection sees it. */
  function Seen(w: World): Row { if w.pending.Some? then w.pending.value else w.row }

  function Doomed(objects: set<Obj>, fault: Fault): set<Obj> {
    match fault
    case Fine => {}
    case Raises(applied, part) => if applied then {} else objects - part
  }

  /** `rmtree` of the local store, or the deletion of one prefix: `hit` says which slots. */
  function Removed(stores: Stores, hit: Slot -> bool, fault: Fault): Stores {
    map s | s in stores :: if hit(s) then Doomed(stores[s], fault) else stores[s]
  }

  /** Reclaiming never raises out of its caller. */
  function AfterRemoval(w: World, e: Env, hit: Slot -> bool): World {
    var v := Tick(w, e);
    v.(stores := Removed(v.stores, hit, e.faults(w.clock)))
  }

  // ---- scripts --------------------------------------------------------------------------------

  datatype Action =
    | Install
    | Format(at: Place, name: string)
    | EnsureFormatted(name: string)
    | Mount
    | Umount
    | Quiesce
    | Sync(from: Slot, to: Slot)
    | Repoint(place: Place)
    | Update(row: Row)
    | Commit

  type Script = seq<Action>

  function Do(w: World, e: Env, a: Action): Outcome {
    match a
    case Install => AfterInstall(w, e)
    case Format(place, name) => AfterFormat(w, e, place, name)
    case EnsureFormatted(name) => AfterEnsureFormatted(w, e, name)
    case Mount => AfterMount(w, e)
    case Umount => AfterUmount(w, e)
    case Quiesce => AfterQuiesce(w, e)
    case Sync(from, to) => AfterSync(w, e, from, to)
    case Repoint(place) => AfterRepoint(w, e, place)
    case Update(row) => AfterUpdate(w, e, row)
    case Commit => AfterCommit(w, e)
  }

  /** One step after the other, until one raises. */
  function Exec(w: World, e: Env, script: Script): Outcome
    decreases |script|
  {
    if script == [] then Outcome(w, true)
    else
      var o := Do(w, e, script[0]);
      if o.ok then Exec(o.world, e, script[1..]) else o
  }

  lemma {:induction false} ExecAppends(w: World, e: Env, a: Script, b: Script)
    ensures Exec(w, e, a + b) == if Exec(w, e, a).ok then Exec(Exec(w, e, a).world, e, b) else Exec(w, e, a)
    decreases |a|
  {
    if a == [] {
      assert a + b == b;
    } else {
      assert (a + b)[1..] == a[1..] + b;
      var o := Do(w, e, a[0]);
      if o.ok {
        ExecAppends(o.world, e, a[1..], b);
      }
    }
  }

  /** The first step of a script. */
  lemma Peel(w: World, e: Env, a: Action, rest: Script)
    ensures Exec(w, e, [a] + rest) == if Do(w, e, a).ok then Exec(Do(w, e, a).world, e, rest) else Do(w, e, a)
  {
    assert ([a] + rest)[1..] == rest;
  }
}
