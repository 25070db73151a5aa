/**
 Host ports (core/ports.py and the port parts of core/apps.py): two-pass
 resolution with an arbitrary shuffle, and the table it keeps exclusive over
 installs, reload syncs and removals.

 `bindable` is the set of ports a bind on 0.0.0.0 would succeed on while one
 operation runs.
 */
module PortAllocator {
  import opened Options
  import opened Sets

  type AppId = string

  datatype PortMapping = PortMapping(slot: string, containerPort: int, hostPort: int)

  /** An app's row and its rows of `app_port_mappings`, by label. */
  datatype App = App(mainPort: int, mapped: map<string, PortMapping>)

  type Table = map<AppId, App>

  // ---- who uses a port ---------------------------------------------------------------

  predicate MapsPort(app: App, port: int) {
    exists l :: l in app.mapped && app.mapped[l].hostPort == port
  }

  predicate UsesPort(app: App, port: int) { app.mainPort == port || MapsPort(app, port) }

  /** Some app other than `exclude` maps the port. */
  predicate MappedByOther(t: Table, exclude: Option<AppId>, port: int) {
    exists a :: a in t && Some(a) != exclude && MapsPort(t[a], port)
  }

  /** `check_port_available`. */
  predicate Available(t: Table, exclude: Option<AppId>, bindable: set<int>, port: int) {
    && (forall a :: a in t && Some(a) != exclude ==> t[a].mainPort != port)
    && !MappedByOther(t, exclude, port)
    && port in bindable
  }

  /** What `_find_free_host_port` may hand out: every main port counts as used, the app's own too. */
  predicate AutoUsable(t: Table, exclude: Option<AppId>, bindable: set<int>, port: int) {
    && (forall a :: a in t ==> t[a].mainPort != port)
    && !MappedByOther(t, exclude, port)
    && port in bindable
  }

  /** The two tests as functions of the port, for one call. */
  function Availability(t: Table, exclude: Option<AppId>, bindable: set<int>): int -> bool {
    p => Available(t, exclude, bindable, p)
  }

  function Usability(t: Table, exclude: Option<AppId>, bindable: set<int>): int -> bool {
    p => AutoUsable(t, exclude, bindable, p)
  }

  // ---- resolve_port_mappings ------------------------------------------------------------

  function Explicit(ms: seq<PortMapping>): seq<PortMapping> {
    if ms == [] then [] else (if ms[0].hostPort != 0 then [ms[0]] else []) + Explicit(ms[1..])
  }

  function Auto(ms: seq<PortMapping>): seq<PortMapping> {
    if ms == [] then [] else (if ms[0].hostPort == 0 then [ms[0]] else []) + Auto(ms[1..])
  }

  predicate Names(ms: seq<PortMapping>, port: int) {
    exists i :: 0 <= i < |ms| && ms[i].hostPort == port
  }

  predicate DistinctPorts(ms: seq<PortMapping>) {
    forall i, j :: 0 <= i < j < |ms| ==> ms[i].hostPort != ms[j].hostPort
  }

  /** The ports of the range that are still to be had once the explicit ones are taken. */
  function FreePorts(usable: int -> bool, lo: int, hi: int, explicit: seq<PortMapping>): set<int> {
    set p | lo <= p <= hi && usable(p) && !Names(explicit, p)
  }

  predicate AllAvailable(ms: seq<PortMapping>, available: int -> bool) {
    forall i :: 0 <= i < |ms| ==> available(ms[i].hostPort)
  }

  predicate AllUsable(ms: seq<PortMapping>, usable: int -> bool, lo: int, hi: int) {
    forall i :: 0 <= i < |ms| ==> lo <= ms[i].hostPort <= hi && usable(ms[i].hostPort)
  }

  /** When resolution succeeds, whatever the shuffle. */
  predicate Resolvable(ms: seq<PortMapping>, available: int -> bool, usable: int -> bool, lo: int, hi: int) {
    && AllAvailable(Explicit(ms), available) && DistinctPorts(Explicit(ms))
    && |Auto(ms)| <= |FreePorts(usable, lo, hi, Explicit(ms))|
  }

  /** `r` is `ms` with nothing changed but the host ports. */
  predicate FillsIn(ms: seq<PortMapping>, r: seq<PortMapping>) {
    |ms| == |r| && forall i :: 0 <= i < |ms| ==> SameSlot(ms[i], r[i])
  }

  predicate SameSlot(m: PortMapping, n: PortMapping) { m.slot == n.slot && m.containerPort == n.containerPort }

  /** What resolution promises about its result: the explicit entries as they were, then the
      automatic ones filled in, no port twice. */
  predicate Resolves(ms: seq<PortMapping>, r: seq<PortMapping>, available: int -> bool, usable: int -> bool, lo: int,
                     hi: int) {
    var n := |Explicit(ms)|;
    && |r| >= n && r[..n] == Explicit(ms)
    && FillsIn(Auto(ms), r[n..])
    && DistinctPorts(r)
    && AllAvailable(r[..n], available)
    && AllUsable(r[n..], usable, lo, hi)
  }

  datatype Resolution = Resolved(mappings: seq<PortMapping>) | Refused

  /** Each search sees the ports of the range in an order of its own. */
  ghost predicate Shuffles(shuffled: nat -> seq<int>, lo: int, hi: int) {
    forall i: nat :: Covers(shuffled(i), lo, hi)
  }

  ghost predicate Covers(candidates: seq<int>, lo: int, hi: int) {
    forall p :: p in candidates <==> lo <= p <= hi
  }

  /** Tries the candidates in the order the shuffle left them. */
  method FindFreeHostPort(usable: int -> bool, claimed: set<int>, candidates: seq<int>) returns (port: Option<int>)
    ensures port.Some? ==> port.value in candidates && port.value !in claimed && usable(port.value)
    ensures port == None ==> forall p :: p in candidates && usable(p) ==> p in claimed
  {
    for i := 0 to |candidates|
      invariant forall k :: 0 <= k < i && usable(candidates[k]) ==> candidates[k] in claimed
    {
      var p := candidates[i];
      if p !in claimed && usable(p) { return Some(p); }
    }
    port := None;
  }

  method ResolvePortMappings(ms: seq<PortMapping>, t: Table, exclude: Option<AppId>, bindable: set<int>, lo: int,
                             hi: int,
                             shuffled: nat -> seq<int>)
    returns (r: Resolution)
    requires Shuffles(shuffled, lo, hi)
    ensures r.Resolved? <==>
            Resolvable(ms, Availability(t, exclude, bindable), Usability(t, exclude, bindable), lo, hi)
    ensures r.Resolved? ==>
              Resolves(ms, r.mappings, Availability(t, exclude, bindable), Usability(t, exclude, bindable), lo, hi)
  {
    var ok, explicit, claimed := ClaimExplicit(ms, Availability(t, exclude, bindable));
    if !ok { return Refused; }
    var fits, filled := AssignAutos(ms, Usability(t, exclude, bindable), lo, hi, shuffled, claimed,
                                    FreePorts(Usability(t, exclude, bindable), lo, hi, explicit));
    if !fits { return Refused; }
    BothDistinct(explicit, filled);
    assert (explicit + filled)[|explicit|..] == filled;
    r := Resolved(explicit + filled);
  }

  /** The first pass. */
  method ClaimExplicit(ms: seq<PortMapping>, available: int -> bool)
    returns (ok: bool, resolved: seq<PortMapping>, claimed: set<int>)
    ensures ok <==> AllAvailable(Explicit(ms), available) && DistinctPorts(Explicit(ms))
    ensures ok ==> resolved == Explicit(ms) && forall p :: p in claimed <==> Names(resolved, p)
  {
    claimed, resolved := {}, [];
    for i := 0 to |ms|
      invariant Claiming(Explicit(ms), Explicit(ms[i..]), resolved)
      invariant AllAvailable(resolved, available) && DistinctPorts(resolved)
      invariant forall p :: p in claimed <==> Names(resolved, p)
    {
      var pm := ms[i];
      ExplicitTail(ms, i);
      if pm.hostPort != 0 {
        ClaimingNext(Explicit(ms), Explicit(ms[i..]), resolved, available);
        if !available(pm.hostPort) || pm.hostPort in claimed { return false, resolved, claimed; }
        NamesOneMore(resolved, pm);
        resolved, claimed := resolved + [pm], claimed + {pm.hostPort};
      }
    }
    ok := true;
  }

  lemma ExplicitTail(ms: seq<PortMapping>, i: nat)
    requires i < |ms|
    ensures Explicit(ms[i..]) ==
            (if ms[i].hostPort != 0 then [ms[i]] + Explicit(ms[i + 1..]) else Explicit(ms[i + 1..]))
    ensures ms[i].hostPort != 0 ==> Explicit(ms[i..])[1..] == Explicit(ms[i + 1..])
  {
    assert ms[i..][1..] == ms[i + 1..];
    assert [] + Explicit(ms[i + 1..]) == Explicit(ms[i + 1..]);
  }

  /** `resolved` is the front of `all`, and `rest` is still to do. */
  ghost predicate Claiming(all: seq<PortMapping>, rest: seq<PortMapping>, resolved: seq<PortMapping>) {
    all == resolved + rest
  }

  lemma ClaimingNext(all: seq<PortMapping>, rest: seq<PortMapping>, resolved: seq<PortMapping>, available: int -> bool)
    requires Claiming(all, rest, resolved) && rest != []
    ensures Claiming(all, rest[1..], resolved + [rest[0]])
    ensures !available(rest[0].hostPort) ==> !AllAvailable(all, available)
    ensures Names(resolved, rest[0].hostPort) ==> !DistinctPorts(all)
  {
    assert all[|resolved|] == rest[0];
    if i :| 0 <= i < |resolved| && resolved[i].hostPort == rest[0].hostPort {
      assert all[i] == resolved[i];
    }
  }

  lemma NamesOneMore(ms: seq<PortMapping>, m: PortMapping)
    ensures forall p :: Names(ms + [m], p) <==> Names(ms, p) || p == m.hostPort
  {
    forall p ensures Names(ms + [m], p) <==> Names(ms, p) || p == m.hostPort {
      if i :| 0 <= i < |ms| && ms[i].hostPort == p {
        assert (ms + [m])[i].hostPort == p;
      }
      assert (ms + [m])[|ms|] == m;
    }
  }

  /** The second pass. */
  method AssignAutos(ms: seq<PortMapping>, usable: int -> bool, lo: int, hi: int,
                     shuffled: nat -> seq<int>, taken: set<int>, ghost free: set<int>)
    returns (fits: bool, filled: seq<PortMapping>)
    requires Shuffles(shuffled, lo, hi)
    requires AreFree(free, usable, lo, hi, taken)
    ensures fits <==> |Auto(ms)| <= |free|
    ensures fits ==> FillsIn(Auto(ms), filled) && DistinctPorts(filled)
    ensures fits ==> forall i :: 0 <= i < |filled| ==> filled[i].hostPort in free
  {
    ghost var given: set<int> := {};
    var claimed := taken;
    filled := [];
    for i := 0 to |ms|
      invariant Filling(Auto(ms), Auto(ms[i..]), filled, given)
      invariant Claimed(claimed, taken, given, free)
    {
      var pm := ms[i];
      AutoTail(ms, i);
      if pm.hostPort == 0 {
        var port := FindFreeHostPort(usable, claimed, shuffled(i));
        if port == None {
          NoneFoundMeansNoneLeft(free, usable, lo, hi, taken, claimed, given, shuffled(i));
          Exhausted(Auto(ms), Auto(ms[i..]), filled, given, free);
          return false, filled;
        }
        FoundIsFree(free, usable, lo, hi, taken, claimed, given, shuffled(i), port.value);
        FillOne(Auto(ms), Auto(ms[i..]), filled, given, port.value);
        filled := filled + [pm.(hostPort := port.value)];
        claimed, given := claimed + {port.value}, given + {port.value};
      }
    }
    SubsetSize(given, free);
    fits := true;
  }

  ghost predicate AreFree(free: set<int>, usable: int -> bool, lo: int, hi: int, taken: set<int>) {
    forall p :: p in free <==> lo <= p <= hi && usable(p) && p !in taken
  }

  ghost predicate Claimed(claimed: set<int>, taken: set<int>, given: set<int>, free: set<int>) {
    given <= free && forall p :: p in claimed <==> p in taken || p in given
  }

  lemma FoundIsFree(free: set<int>, usable: int -> bool, lo: int, hi: int, taken: set<int>, claimed: set<int>,
                    given: set<int>, candidates: seq<int>, port: int)
    requires AreFree(free, usable, lo, hi, taken) && Claimed(claimed, taken, given, free)
    requires port in candidates && port !in claimed && usable(port) && Covers(candidates, lo, hi)
    ensures port !in given && Claimed(claimed + {port}, taken, given + {port}, free)
  {
    assert lo <= port <= hi;
    assert port in free;
  }

  lemma NoneFoundMeansNoneLeft(free: set<int>, usable: int -> bool, lo: int, hi: int, taken: set<int>,
                               claimed: set<int>,
                               given: set<int>, candidates: seq<int>)
    requires AreFree(free, usable, lo, hi, taken) && Claimed(claimed, taken, given, free) && Covers(candidates, lo, hi)
    requires forall p :: p in candidates && usable(p) ==> p in claimed
    ensures forall p :: p in free ==> p in given
  {
    forall p | p in free ensures p in given {
      assert p in candidates;
    }
  }

  lemma AutoTail(ms: seq<PortMapping>, i: nat)
    requires i < |ms|
    ensures Auto(ms[i..]) == (if ms[i].hostPort == 0 then [ms[i]] + Auto(ms[i + 1..]) else Auto(ms[i + 1..]))
    ensures ms[i].hostPort == 0 ==> Auto(ms[i..])[1..] == Auto(ms[i + 1..])
  {
    assert ms[i..][1..] == ms[i + 1..];
    assert [] + Auto(ms[i + 1..]) == Auto(ms[i + 1..]);
  }

  /** `filled` fills in the front of `all`, `rest` is still to do, and `given` are the ports used so far. */
  ghost predicate Filling(all: seq<PortMapping>, rest: seq<PortMapping>, filled: seq<PortMapping>, given: set<int>) {
    && |filled| <= |all| && all[|filled|..] == rest
    && (forall k :: 0 <= k < |filled| ==> SameSlot(all[k], filled[k]) && filled[k].hostPort in given)
    && DistinctPorts(filled) && |given| == |filled|
  }

  lemma Exhausted(all: seq<PortMapping>, rest: seq<PortMapping>, filled: seq<PortMapping>, given: set<int>,
                  free: set<int>)
    requires Filling(all, rest, filled, given) && rest != []
    requires forall p :: p in free ==> p in given
    ensures |all| > |free|
  {
    IntSubset(free, given);
    SubsetSize(free, given);
  }

  lemma IntSubset(a: set<int>, b: set<int>)
    requires forall p :: p in a ==> p in b
    ensures a <= b
  {
    forall p | p in a ensures p in b {
    }
  }

  lemma FillOne(all: seq<PortMapping>, rest: seq<PortMapping>, filled: seq<PortMapping>, given: set<int>, port: int)
    requires Filling(all, rest, filled, given) && rest != [] && port !in given
    ensures Filling(all, rest[1..], filled + [rest[0].(hostPort := port)], given + {port})
  {
    assert all[|filled|] == all[|filled|..][0];
    assert all[|filled| + 1..] == all[|filled|..][1..];
  }

  lemma BothDistinct(a: seq<PortMapping>, b: seq<PortMapping>)
    requires DistinctPorts(a) && DistinctPorts(b)
    requires forall i :: 0 <= i < |b| ==> !Names(a, b[i].hostPort)
    ensures DistinctPorts(a + b)
  {
  }

  // ---- nothing else changes ---------------------------------------------------------------

  /** How often a label occurs with a container port. */
  function CountSlot(ms: seq<PortMapping>, slot: string, containerPort: int): nat {
    if ms == [] then 0
    else
      (if ms[0].slot == slot && ms[0].containerPort == containerPort then 1 else 0)
      + CountSlot(ms[1..], slot, containerPort)
  }

  lemma {:induction false} CountConcat(a: seq<PortMapping>, b: seq<PortMapping>, slot: string, containerPort: int)
    ensures CountSlot(a + b, slot, containerPort)
         == CountSlot(a, slot, containerPort) + CountSlot(b, slot, containerPort)
  {
    if a == [] {
      assert a + b == b;
    } else {
      assert (a + b)[1..] == a[1..] + b;
      CountConcat(a[1..], b, slot, containerPort);
    }
  }

  lemma {:induction false} FillingKeepsCounts(ms: seq<PortMapping>, r: seq<PortMapping>, slot: string,
                                              containerPort: int)
    requires FillsIn(ms, r)
    ensures CountSlot(r, slot, containerPort) == CountSlot(ms, slot, containerPort)
  {
    if ms != [] {
      FillingKeepsCounts(ms[1..], r[1..], slot, containerPort);
    }
  }

  lemma {:induction false} SplitKeepsCounts(ms: seq<PortMapping>, slot: string, containerPort: int)
    ensures CountSlot(Explicit(ms), slot, containerPort) + CountSlot(Auto(ms), slot, containerPort)
         == CountSlot(ms, slot, containerPort)
  {
    if ms != [] {
      SplitKeepsCounts(ms[1..], slot, containerPort);
      var e, a := Explicit(ms[1..]), Auto(ms[1..]);
      assert ([ms[0]] + e)[1..] == e && ([ms[0]] + a)[1..] == a;
      assert [] + e == e && [] + a == a;
    }
  }

  /** A resolution keeps the multiset of (label, container port); that it keeps the explicit
      entries whole is the first half of `Resolves`. */
  lemma ResolutionKeepsEverySlot(ms: seq<PortMapping>, r: seq<PortMapping>, available: int -> bool, usable: int -> bool,
                                 lo: int, hi: int, slot: string, containerPort: int)
    requires Resolves(ms, r, available, usable, lo, hi)
    ensures CountSlot(r, slot, containerPort) == CountSlot(ms, slot, containerPort)
  {
    var n := |Explicit(ms)|;
    assert r == Explicit(ms) + r[n..];
    CountConcat(Explicit(ms), r[n..], slot, containerPort);
    FillingKeepsCounts(Auto(ms), r[n..], slot, containerPort);
    SplitKeepsCounts(ms, slot, containerPort);
  }

  // ---- the table over installs, reload syncs and removals ------------------------------------

  /** The manifest parser rejects a port label used twice. */
  predicate DistinctSlots(ms: seq<PortMapping>) {
    forall i, j :: 0 <= i < j < |ms| ==> ms[i].slot != ms[j].slot
  }

  function BySlot(ms: seq<PortMapping>): (rows: map<string, PortMapping>)
    ensures forall l :: l in rows ==> rows[l] in ms && rows[l].slot == l
    ensures forall m :: m in ms ==> m.slot in rows
  {
    if ms == [] then map[] else BySlot(ms[..|ms| - 1])[ms[|ms| - 1].slot := ms[|ms| - 1]]
  }

  /** The manifest's mappings with the ports the caller asked for. */
  function Overridden(ms: seq<PortMapping>, overrides: map<string, int>): (r: seq<PortMapping>)
    ensures |r| == |ms| && forall i :: 0 <= i < |ms| ==> SameSlot(ms[i], r[i])
  {
    if ms == [] then []
    else
      [if ms[0].slot in overrides then ms[0].(hostPort := overrides[ms[0].slot]) else ms[0]]
      + Overridden(ms[1..], overrides)
  }

  /** The manifest's mappings on reload: a known label keeps its host port. */
  function Preserving(ms: seq<PortMapping>, existing: map<string, PortMapping>): seq<PortMapping> {
    Overridden(ms, map l | l in existing :: existing[l].hostPort)
  }

  /** The row an app ends up with for an entry of its manifest: the label and container port are the
      manifest's, and so is the host port it is to have, if one is asked for. */
  predicate RowFor(m: PortMapping, asked: int, rows: map<string, PortMapping>) {
    m.slot in rows && SameSlot(m, rows[m.slot]) && (asked != 0 ==> rows[m.slot].hostPort == asked)
  }

  /** Exactly the manifest's labels, each known one on the host port it had, each new one on the port
      the manifest fixes, if it does. */
  predicate KeepsKnownPorts(manifest: seq<PortMapping>, before: map<string, PortMapping>,
                            after: map<string, PortMapping>) {
    && (forall m :: m in manifest ==>
          RowFor(m, if m.slot in before then before[m.slot].hostPort else m.hostPort, after))
    && forall l :: l in after ==> HasSlot(manifest, l)
  }

  /** Exactly the manifest's labels, each on the port the caller asked for, or else the manifest. */
  predicate UsesAskedPorts(manifest: seq<PortMapping>, overrides: map<string, int>, rows: map<string, PortMapping>) {
    && (forall m :: m in manifest ==> RowFor(m, if m.slot in overrides then overrides[m.slot] else m.hostPort, rows))
    && forall l :: l in rows ==> HasSlot(manifest, l)
  }

  /** Only what the manifest still names, untouched. */
  ghost predicate OnlyDropsLabels(manifest: seq<PortMapping>, before: map<string, PortMapping>,
                                  after: map<string, PortMapping>) {
    && (forall l :: l in after <==> l in before && HasSlot(manifest, l))
    && forall l :: l in after ==> after[l] == before[l]
  }

  predicate HasSlot(ms: seq<PortMapping>, slot: string) { exists m :: m in ms && m.slot == slot }

  /** The rows that survive the first half of a sync. */
  function StillWanted(ms: seq<PortMapping>, existing: map<string, PortMapping>): map<string, PortMapping> {
    map l | l in existing && HasSlot(ms, l) :: existing[l]
  }

  datatype Range = Range(lo: int, hi: int, bindable: set<int>)

  datatype Event =
    | Install(app: AppId, mainPort: int, wanted: seq<PortMapping>, resolved: seq<PortMapping>, range: Range)
    | Sync(app: AppId, manifest: seq<PortMapping>, outcome: Option<seq<PortMapping>>, range: Range)
    | Remove(app: AppId)

  predicate ResolvesIn(ms: seq<PortMapping>, r: seq<PortMapping>, t: Table, exclude: Option<AppId>, g: Range) {
    Resolves(ms, r, Availability(t, exclude, g.bindable), Usability(t, exclude, g.bindable), g.lo, g.hi)
  }

  predicate ResolvableIn(ms: seq<PortMapping>, t: Table, exclude: Option<AppId>, g: Range) {
    Resolvable(ms, Availability(t, exclude, g.bindable), Usability(t, exclude, g.bindable), g.lo, g.hi)
  }

  /** One operation that reached the database.  A sync whose resolution is refused has still
      dropped the labels the manifest no longer has: the error path commits. */
  predicate Step(t: Table, event: Event, t': Table) {
    match event
    case Install(app, mainPort, wanted, resolved, g) =>
      && app !in t && AutoUsable(t, None, g.bindable, mainPort)
      && ResolvesIn(wanted, resolved, t, None, g)
      && t' == t[app := App(mainPort, BySlot(resolved))]
    case Sync(app, manifest, outcome, g) =>
      && app in t
      && var wanted := Preserving(manifest, t[app].mapped);
         var trimmed := t[app := t[app].(mapped := StillWanted(manifest, t[app].mapped))];
         if outcome == None then !ResolvableIn(wanted, trimmed, Some(app), g) && t' == trimmed
         else ResolvesIn(wanted, outcome.value, trimmed, Some(app), g)
              && t' == trimmed[app := t[app].(mapped := trimmed[app].mapped + BySlot(outcome.value))]
    case Remove(app) => app in t && t' == t - {app}
  }

  class PortTable {
    var table: Table

    constructor ()
      ensures table == map[]
    {
      table := map[];
    }

    method AllocatePort(g: Range) returns (port: Option<int>)
      ensures port.Some? ==>
                && g.lo <= port.value <= g.hi && AutoUsable(table, None, g.bindable, port.value)
                && forall p :: g.lo <= p < port.value ==> !AutoUsable(table, None, g.bindable, p)
      ensures port == None ==> forall p :: g.lo <= p <= g.hi ==> !AutoUsable(table, None, g.bindable, p)
    {
      var p := g.lo;
      while p <= g.hi
        invariant forall q :: g.lo <= q < p ==> !AutoUsable(table, None, g.bindable, q)
        invariant g.lo <= p
      {
        if AutoUsable(table, None, g.bindable, p) { return Some(p); }
        p := p + 1;
      }
      port := None;
    }

    /** The port part of `insert_and_deploy`; `app` is freshly minted. */
    method InsertAndDeploy(app: AppId, manifest: seq<PortMapping>, overrides: map<string, int>, g: Range,
                           shuffled: nat -> seq<int>)
      returns (ok: bool, ghost event: Event)
      requires app !in table && DistinctSlots(manifest) && Shuffles(shuffled, g.lo, g.hi)
      modifies this
      ensures ok <==>
              && (exists p :: g.lo <= p <= g.hi && AutoUsable(old(table), None, g.bindable, p))
              && ResolvableIn(Overridden(manifest, overrides), old(table), None, g)
      ensures ok ==> event.Install? && event.app == app && event.wanted == Overridden(manifest, overrides)
      ensures ok ==> Step(old(table), event, table) && UsesAskedPorts(manifest, overrides, table[app].mapped)
      ensures !ok ==> table == old(table)
    {
      event := Remove(app);
      var mainPort := AllocatePort(g);
      if mainPort == None { return false, event; }
      var wanted := Overridden(manifest, overrides);
      var r := ResolvePortMappings(wanted, table, None, g.bindable, g.lo, g.hi, shuffled);
      if r.Refused? { return false, event; }
      event := Install(app, mainPort.value, wanted, r.mappings, g);
      AskedPortsAreUsed(manifest, overrides, r.mappings, table, None, g);
      table := table[app := App(mainPort.value, BySlot(r.mappings))];
      ok := true;
    }

    method SyncPortMappings(app: AppId, manifest: seq<PortMapping>, g: Range, shuffled: nat -> seq<int>)
      returns (ok: bool, ghost event: Event)
      requires app in table && DistinctSlots(manifest) && Shuffles(shuffled, g.lo, g.hi)
      modifies this
      ensures event.Sync? && event.app == app && event.manifest == manifest && (event.outcome.Some? <==> ok)
      ensures Step(old(table), event, table)
      ensures ok ==> KeepsKnownPorts(manifest, old(table)[app].mapped, table[app].mapped)
      ensures !ok ==> OnlyDropsLabels(manifest, old(table)[app].mapped, table[app].mapped)
    {
      ghost var before := table;
      var existing := table[app].mapped;
      table := table[app := table[app].(mapped := StillWanted(manifest, existing))];
      var wanted := Preserving(manifest, existing);
      var r := ResolvePortMappings(wanted, table, Some(app), g.bindable, g.lo, g.hi, shuffled);
      if r.Refused? {
        return false, Sync(app, manifest, None, g);
      }
      event := Sync(app, manifest, Some(r.mappings), g);
      table := table[app := table[app].(mapped := table[app].mapped + BySlot(r.mappings))];
      SyncKeepsKnownPorts(before, event, table);
      ok := true;
    }

    method RemoveApp(app: AppId)
      requires app in table
      modifies this
      ensures Step(old(table), Remove(app), table)
    {
      table := table - {app};
    }
  }

  /** No two apps share a host port, main or mapped; no app maps one port twice. */
  ghost predicate Exclusive(t: Table) {
    && (forall a, b, p :: a in t && b in t && a != b && UsesPort(t[a], p) ==> !UsesPort(t[b], p))
    && (forall a :: a in t ==> MapsEachOnce(t[a].mapped))
  }

  predicate MapsEachOnce(rows: map<string, PortMapping>) {
    forall l, m :: l in rows && m in rows && l != m ==> rows[l].hostPort != rows[m].hostPort
  }

  /** Nobody but `exclude` uses the port. */
  predicate FreeOfOthers(t: Table, exclude: Option<AppId>, port: int) {
    forall a :: a in t && Some(a) != exclude ==> !UsesPort(t[a], port)
  }

  /** A port may be asked for exactly if a bind would succeed and no other app uses it, as its main port
      or a mapped one; and it may be handed out if besides it is not the app's own main port. */
  lemma AvailableExactlyWhen(t: Table, exclude: Option<AppId>, bindable: set<int>, port: int)
    ensures Available(t, exclude, bindable, port) <==> port in bindable && FreeOfOthers(t, exclude, port)
    ensures AutoUsable(t, exclude, bindable, port) <==>
            && port in bindable && FreeOfOthers(t, exclude, port)
            && forall a :: a in t && Some(a) == exclude ==> t[a].mainPort != port
  {
    if port in bindable && FreeOfOthers(t, exclude, port) {
      assert !MappedByOther(t, exclude, port);
    }
  }

  /** Whatever a resolution hands out is unused by every other app, and can be bound. */
  lemma ResolvedPortsAreFree(ms: seq<PortMapping>, r: seq<PortMapping>, t: Table, exclude: Option<AppId>, g: Range)
    requires ResolvesIn(ms, r, t, exclude, g)
    ensures forall m :: m in r ==> m.hostPort in g.bindable && FreeOfOthers(t, exclude, m.hostPort)
  {
    var n := |Explicit(ms)|;
    forall m | m in r ensures m.hostPort in g.bindable && FreeOfOthers(t, exclude, m.hostPort) {
      var i :| 0 <= i < |r| && r[i] == m;
      if i < n {
        assert r[..n][i] == m;
        assert Available(t, exclude, g.bindable, m.hostPort);
      } else {
        assert r[n..][i - n] == m;
        assert AutoUsable(t, exclude, g.bindable, m.hostPort);
      }
    }
  }

  lemma RowsMapEachOnce(ms: seq<PortMapping>)
    requires DistinctPorts(ms)
    ensures MapsEachOnce(BySlot(ms))
  {
    var rows := BySlot(ms);
    forall l, m | l in rows && m in rows && l != m ensures rows[l].hostPort != rows[m].hostPort {
      var i :| 0 <= i < |ms| && ms[i] == rows[l];
      var j :| 0 <= j < |ms| && ms[j] == rows[m];
    }
  }

  /** Giving one app ports nobody else uses keeps the table exclusive. */
  lemma ReplacingKeepsExclusive(t: Table, app: AppId, row: App)
    requires Exclusive(t) && MapsEachOnce(row.mapped)
    requires forall p :: UsesPort(row, p) ==> FreeOfOthers(t, Some(app), p)
    ensures Exclusive(t[app := row])
  {
    var t' := t[app := row];
    forall a, b, p | a in t' && b in t' && a != b && UsesPort(t'[a], p) ensures !UsesPort(t'[b], p) {
      if a == app || b == app {
        assert FreeOfOthers(t, Some(app), p) || !UsesPort(row, p);
      }
    }
  }

  lemma {:induction false} EveryEntryIsInOnePass(ms: seq<PortMapping>, m: PortMapping)
    requires m in ms
    ensures m in Explicit(ms) || m in Auto(ms)
  {
    if m != ms[0] {
      EveryEntryIsInOnePass(ms[1..], m);
    }
  }

  /** Every label asked for is among the rows a resolution writes. */
  lemma ResolvedHasEverySlot(ms: seq<PortMapping>, r: seq<PortMapping>, t: Table, exclude: Option<AppId>, g: Range,
                             slot: string)
    requires ResolvesIn(ms, r, t, exclude, g) && HasSlot(ms, slot)
    ensures slot in BySlot(r)
  {
    var m :| m in ms && m.slot == slot;
    EveryEntryIsInOnePass(ms, m);
    var n := |Explicit(ms)|;
    if m in Explicit(ms) {
      var i :| 0 <= i < n && Explicit(ms)[i] == m;
      assert r[..n][i] == r[i] && r[i] in r;
    } else {
      var i :| 0 <= i < |Auto(ms)| && Auto(ms)[i] == m;
      assert SameSlot(Auto(ms)[i], r[n..][i]) && r[n..][i] == r[n + i] && r[n + i] in r;
    }
  }

  lemma OverridingKeepsSlots(ms: seq<PortMapping>, overrides: map<string, int>, slot: string)
    ensures HasSlot(Overridden(ms, overrides), slot) <==> HasSlot(ms, slot)
  {
    var r := Overridden(ms, overrides);
    if HasSlot(ms, slot) {
      var i :| 0 <= i < |ms| && ms[i].slot == slot;
      assert r[i] in r && r[i].slot == slot;
    }
    if HasSlot(r, slot) {
      var i :| 0 <= i < |r| && r[i].slot == slot;
      assert ms[i] in ms && ms[i].slot == slot;
    }
  }

  /** A successful sync leaves exactly the rows it resolved. */
  lemma SyncedRows(t: Table, app: AppId, manifest: seq<PortMapping>, r: seq<PortMapping>, trimmed: Table, g: Range)
    requires app in t
    requires ResolvesIn(Preserving(manifest, t[app].mapped), r, trimmed, Some(app), g)
    ensures StillWanted(manifest, t[app].mapped) + BySlot(r) == BySlot(r)
  {
    var existing := t[app].mapped;
    forall l | l in StillWanted(manifest, existing) ensures l in BySlot(r) {
      OverridingKeepsSlots(manifest, map k | k in existing :: existing[k].hostPort, l);
      ResolvedHasEverySlot(Preserving(manifest, existing), r, trimmed, Some(app), g, l);
    }
  }

  // ---- which ports they are ---------------------------------------------------------------

  lemma {:induction false} EntriesOfThePasses(ms: seq<PortMapping>)
    ensures forall m :: m in Explicit(ms) ==> m in ms && m.hostPort != 0
    ensures forall m :: m in Auto(ms) ==> m in ms && m.hostPort == 0
  {
    if ms != [] {
      EntriesOfThePasses(ms[1..]);
    }
  }

  lemma DistinctSlotsAreOneEntry(ms: seq<PortMapping>, m: PortMapping, n: PortMapping)
    requires DistinctSlots(ms) && m in ms && n in ms && m.slot == n.slot
    ensures m == n
  {
    var i :| 0 <= i < |ms| && ms[i] == m;
    var j :| 0 <= j < |ms| && ms[j] == n;
  }

  /** The entry that a row of a resolution comes from. */
  lemma EntryBehind(ms: seq<PortMapping>, r: seq<PortMapping>, t: Table, exclude: Option<AppId>, g: Range, i: nat)
    returns (m: PortMapping)
    requires ResolvesIn(ms, r, t, exclude, g) && i < |r|
    ensures m in ms && SameSlot(m, r[i]) && (m.hostPort != 0 ==> m == r[i])
  {
    EntriesOfThePasses(ms);
    var n := |Explicit(ms)|;
    if i < n {
      m := r[..n][i];
    } else {
      m := Auto(ms)[i - n];
      assert SameSlot(m, r[n..][i - n]);
    }
  }

  /** Every row of a resolution is that of the entry of its label; an explicit one is the entry. */
  lemma ResolvedRow(ms: seq<PortMapping>, r: seq<PortMapping>, t: Table, exclude: Option<AppId>, g: Range,
                    m: PortMapping)
    requires ResolvesIn(ms, r, t, exclude, g) && DistinctSlots(ms) && m in ms
    ensures RowFor(m, m.hostPort, BySlot(r))
  {
    assert HasSlot(ms, m.slot);
    ResolvedHasEverySlot(ms, r, t, exclude, g, m.slot);
    var i :| 0 <= i < |r| && r[i] == BySlot(r)[m.slot];
    var n := EntryBehind(ms, r, t, exclude, g, i);
    DistinctSlotsAreOneEntry(ms, m, n);
  }

  /** And there are no other rows. */
  lemma ResolvedLabels(ms: seq<PortMapping>, r: seq<PortMapping>, t: Table, exclude: Option<AppId>, g: Range,
                       slot: string)
    requires ResolvesIn(ms, r, t, exclude, g) && slot in BySlot(r)
    ensures HasSlot(ms, slot)
  {
    var i :| 0 <= i < |r| && r[i] == BySlot(r)[slot];
    var m := EntryBehind(ms, r, t, exclude, g, i);
  }

  lemma {:induction false} OverriddenEntry(ms: seq<PortMapping>, overrides: map<string, int>, i: nat)
    requires i < |ms|
    ensures Overridden(ms, overrides)[i].hostPort ==
            if ms[i].slot in overrides then overrides[ms[i].slot] else ms[i].hostPort
  {
    if i > 0 {
      OverriddenEntry(ms[1..], overrides, i - 1);
    }
  }

  /** Asking for ports, by whichever map, and resolving gives them. */
  lemma AskedPortsAreUsed(ms: seq<PortMapping>, overrides: map<string, int>, r: seq<PortMapping>, t: Table,
                          exclude: Option<AppId>, g: Range)
    requires ResolvesIn(Overridden(ms, overrides), r, t, exclude, g) && DistinctSlots(ms)
    ensures UsesAskedPorts(ms, overrides, BySlot(r))
  {
    var wanted := Overridden(ms, overrides);
    forall m | m in ms
      ensures RowFor(m, if m.slot in overrides then overrides[m.slot] else m.hostPort, BySlot(r)) {
      var i :| 0 <= i < |ms| && ms[i] == m;
      OverriddenEntry(ms, overrides, i);
      assert SameSlot(ms[i], wanted[i]) && wanted[i] in wanted;
      ResolvedRow(wanted, r, t, exclude, g, wanted[i]);
    }
    forall l | l in BySlot(r) ensures HasSlot(ms, l) {
      ResolvedLabels(wanted, r, t, exclude, g, l);
      OverridingKeepsSlots(ms, overrides, l);
    }
  }

  /** A reload moves no known label to another port, gives each new one the port its manifest fixes,
      and drops exactly the labels the manifest no longer has. */
  lemma SyncKeepsKnownPorts(t: Table, event: Event, t': Table)
    requires event.Sync? && Step(t, event, t') && DistinctSlots(event.manifest)
    ensures t'.Keys == t.Keys && t'[event.app].mainPort == t[event.app].mainPort
    ensures forall a :: a in t && a != event.app ==> t'[a] == t[a]
    ensures event.outcome.Some? ==> KeepsKnownPorts(event.manifest, t[event.app].mapped, t'[event.app].mapped)
    ensures event.outcome == None ==> OnlyDropsLabels(event.manifest, t[event.app].mapped, t'[event.app].mapped)
  {
    if event.outcome.Some? {
      var app, existing, r := event.app, t[event.app].mapped, event.outcome.value;
      var trimmed := t[app := t[app].(mapped := StillWanted(event.manifest, existing))];
      SyncedRows(t, app, event.manifest, r, trimmed, event.range);
      AskedPortsAreUsed(event.manifest, map l | l in existing :: existing[l].hostPort, r, trimmed, Some(app),
                        event.range);
    }
  }

  lemma RowsUseOnlyTheirPorts(mainPort: int, ms: seq<PortMapping>, t: Table, exclude: Option<AppId>)
    requires FreeOfOthers(t, exclude, mainPort)
    requires forall m :: m in ms ==> FreeOfOthers(t, exclude, m.hostPort)
    ensures forall p :: UsesPort(App(mainPort, BySlot(ms)), p) ==> FreeOfOthers(t, exclude, p)
  {
  }

  lemma InstallKeepsExclusive(t: Table, event: Event, t': Table)
    requires Exclusive(t) && event.Install? && Step(t, event, t')
    ensures Exclusive(t')
  {
    ResolvedPortsAreFree(event.wanted, event.resolved, t, None, event.range);
    RowsMapEachOnce(event.resolved);
    assert FreeOfOthers(t, None, event.mainPort);
    RowsUseOnlyTheirPorts(event.mainPort, event.resolved, t, None);
    forall p | UsesPort(t'[event.app], p) ensures FreeOfOthers(t, Some(event.app), p) {
      assert FreeOfOthers(t, None, p);
    }
    ReplacingKeepsExclusive(t, event.app, t'[event.app]);
  }

  lemma SyncKeepsExclusive(t: Table, event: Event, t': Table)
    requires Exclusive(t) && event.Sync? && Step(t, event, t')
    ensures Exclusive(t')
  {
    var app, row := event.app, t[event.app];
    var trimmed := t[app := row.(mapped := StillWanted(event.manifest, row.mapped))];
    forall p | UsesPort(trimmed[app], p) ensures FreeOfOthers(t, Some(app), p) {
      assert UsesPort(row, p);
    }
    ReplacingKeepsExclusive(t, app, trimmed[app]);
    if event.outcome.Some? {
      var r := event.outcome.value;
      SyncedRows(t, app, event.manifest, r, trimmed, event.range);
      ResolvedPortsAreFree(Preserving(event.manifest, row.mapped), r, trimmed, Some(app), event.range);
      RowsMapEachOnce(r);
      assert UsesPort(row, row.mainPort);
      assert FreeOfOthers(trimmed, Some(app), row.mainPort);
      RowsUseOnlyTheirPorts(row.mainPort, r, trimmed, Some(app));
      ReplacingKeepsExclusive(trimmed, app, t'[app]);
    }
  }

  /** Every operation, a failed sync included, keeps the table exclusive. */
  lemma StepKeepsExclusive(t: Table, event: Event, t': Table)
    requires Exclusive(t) && Step(t, event, t')
    ensures Exclusive(t')
  {
    match event
    case Install(_, _, _, _, _) => InstallKeepsExclusive(t, event, t');
    case Sync(_, _, _, _) => SyncKeepsExclusive(t, event, t');
    case Remove(_) =>
  }

  /** Tables reached from the empty one by the given operations. */
  ghost predicate IsRun(events: seq<Event>, tables: seq<Table>) {
    && |tables| == |events| + 1 && tables[0] == map[]
    && forall i :: 0 <= i < |events| ==> Step(tables[i], events[i], tables[i + 1])
  }

  /** Over every sequence of installs, syncs that succeed or fail, and removals, two apps never
      share a host port and no app maps one twice. */
  lemma {:induction false} NoTwoAppsEverShareAPort(events: seq<Event>, tables: seq<Table>, i: nat)
    requires IsRun(events, tables) && i < |tables|
    ensures Exclusive(tables[i])
  {
    if i > 0 {
      NoTwoAppsEverShareAPort(events, tables, i - 1);
      StepKeepsExclusive(tables[i - 1], events[i - 1], tables[i]);
    }
  }

  /** What is not promised: an install may map the very port it was given as its main port,
      because that port is not in the table yet when the mappings are resolved. */
  lemma OwnMainPortMayBeMapped()
    ensures exists event: Event, t': Table :: Step(map[], event, t') && event.app in t'
              && MapsPort(t'[event.app], t'[event.app].mainPort)
  {
    var pm := PortMapping("udp", 51820, 9000);
    var g := Range(9000, 9999, {9000});
    var event := Install("vpn", 9000, [pm], [pm], g);
    var t': Table := map["vpn" := App(9000, BySlot([pm]))];
    assert [pm][1..] == [] && [pm][..0] == [];
    assert Explicit([pm]) == [pm] && Auto([pm]) == [];
    assert BySlot([pm]) == map["udp" := pm];
    assert Step(map[], event, t');
    assert t'["vpn"].mapped["udp"].hostPort == 9000;
  }
}
