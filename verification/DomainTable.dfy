/**
 The `domains` table (core/domains.py): seeding, upserts, removals and promotion keep exactly
 one primary.
 */
module DomainTable {
  import opened Options
  import opened HostMatching

  datatype DomainRow = DomainRow(name: string, isPrimary: bool)

  type Domains = seq<DomainRow>

  /** `name` is the table's key. */
  predicate UniqueNames(ds: Domains) {
    forall i, j :: 0 <= i < j < |ds| ==> ds[i].name != ds[j].name
  }

  /** `name` is the primary and nothing else is. */
  predicate PrimaryIs(ds: Domains, name: string) {
    DomainRow(name, true) in ds && forall r :: r in ds && r.isPrimary ==> r.name == name
  }

  /** `SELECT ... WHERE is_primary = 1`. */
  function Primary(ds: Domains): Option<string> {
    if ds == [] then None else if ds[0].isPrimary then Some(ds[0].name) else Primary(ds[1..])
  }

  lemma {:induction false} PrimaryFound(ds: Domains, name: string)
    requires PrimaryIs(ds, name)
    ensures Primary(ds) == Some(name)
  {
    if !ds[0].isPrimary {
      assert DomainRow(name, true) in ds[1..];
      PrimaryFound(ds[1..], name);
    }
  }

  /** `get_record`: the first row of that host, ports and case aside. */
  function Find(ds: Domains, host: string): Option<DomainRow> {
    if ds == [] then None else if HostKey(ds[0].name) == HostKey(host) then Some(ds[0]) else Find(ds[1..], host)
  }

  lemma {:induction false} Found(ds: Domains, host: string)
    ensures Find(ds, host).Some? ==> Find(ds, host).value in ds && HostKey(Find(ds, host).value.name) == HostKey(host)
    ensures Find(ds, host) == None ==> forall r :: r in ds ==> HostKey(r.name) != HostKey(host)
  {
    if ds != [] {
      Found(ds[1..], host);
    }
  }

  /** The two updates of a promotion. */
  function Moved(ds: Domains, from: string, to: string): (r: Domains)
    ensures |r| == |ds|
    ensures forall i :: 0 <= i < |ds| ==> r[i].name == ds[i].name
    ensures forall i :: 0 <= i < |ds| ==>
              r[i].isPrimary ==
                (if ds[i].name == to then true else if ds[i].name == from then false else ds[i].isPrimary)
  {
    if ds == [] then []
    else [ds[0].(isPrimary := if ds[0].name == to then true else if ds[0].name == from then false else ds[0].isPrimary)]
         + Moved(ds[1..], from, to)
  }

  lemma PromotionMovesThePrimary(ds: Domains, from: string, to: DomainRow)
    requires UniqueNames(ds) && PrimaryIs(ds, from) && to in ds
    ensures UniqueNames(Moved(ds, from, to.name)) && PrimaryIs(Moved(ds, from, to.name), to.name)
  {
    var r := Moved(ds, from, to.name);
    var i :| 0 <= i < |ds| && ds[i] == to;
    assert r[i] == DomainRow(to.name, true);
    forall x | x in r && x.isPrimary ensures x.name == to.name {
      var j :| 0 <= j < |r| && r[j] == x;
      assert ds[j] in ds;
    }
  }

  /** `upsert_record`: an existing row's flag is never touched, and the index on the primary
      refuses a second one. */
  function Upserted(ds: Domains, name: string, isPrimary: bool): Option<Domains> {
    if exists r :: r in ds && r.name == Lower(name) then Some(ds)
    else if isPrimary && Primary(ds).Some? then None
    else Some(ds + [DomainRow(Lower(name), isPrimary)])
  }

  lemma {:induction false} PrimaryExists(ds: Domains)
    ensures Primary(ds).Some? <==> exists r :: r in ds && r.isPrimary
  {
    if ds != [] {
      PrimaryExists(ds[1..]);
      assert ds[0] in ds;
    }
  }

  /** A second primary is refused; else every row stays, and there is one of the name given, new if
      there was none. */
  lemma UpsertedRows(ds: Domains, name: string, isPrimary: bool)
    ensures var r := Upserted(ds, name, isPrimary);
            var known := exists x :: x in ds && x.name == Lower(name);
            && (r == None <==> !known && isPrimary && exists x :: x in ds && x.isPrimary)
            && (r.Some? ==> forall x :: x in r.value <==> x in ds || (!known && x == DomainRow(Lower(name), isPrimary)))
  {
    PrimaryExists(ds);
  }

  lemma UpsertKeepsPrimary(ds: Domains, name: string, isPrimary: bool, primary: string)
    requires UniqueNames(ds) && PrimaryIs(ds, primary)
    ensures var r := Upserted(ds, name, isPrimary); r.Some? ==> UniqueNames(r.value) && PrimaryIs(r.value, primary)
  {
    PrimaryFound(ds, primary);
  }

  /** `remove_non_primary_record`. */
  function Removed(ds: Domains, name: string): Domains {
    if ds == [] then []
    else (if ds[0].name == Lower(name) && !ds[0].isPrimary then [] else [ds[0]]) + Removed(ds[1..], name)
  }

  lemma {:induction false} RemovedRows(ds: Domains, name: string)
    ensures forall r :: r in Removed(ds, name) <==> r in ds && !(r.name == Lower(name) && !r.isPrimary)
    ensures UniqueNames(ds) ==> UniqueNames(Removed(ds, name))
  {
    if ds != [] {
      RemovedRows(ds[1..], name);
      var rest := Removed(ds[1..], name);
      forall r ensures r in Removed(ds, name) <==> r in ds && !(r.name == Lower(name) && !r.isPrimary) {
        assert r in ds <==> r == ds[0] || r in ds[1..];
      }
      if UniqueNames(ds) {
        forall r | r in rest ensures r.name != ds[0].name {
          var i :| 0 <= i < |ds[1..]| && ds[1..][i] == r;
          assert ds[i + 1] == r;
        }
      }
    }
  }

  lemma RemovalKeepsPrimary(ds: Domains, name: string, primary: string)
    requires UniqueNames(ds) && PrimaryIs(ds, primary)
    ensures UniqueNames(Removed(ds, name)) && PrimaryIs(Removed(ds, name), primary)
  {
    RemovedRows(ds, name);
  }

  /** The extras that survive de-duplication by host. */
  function Kept(extras: seq<string>, seen: set<string>): seq<string> {
    if extras == [] then []
    else if BeforeColon(extras[0]) in seen then Kept(extras[1..], seen)
    else [extras[0]] + Kept(extras[1..], seen + {BeforeColon(extras[0])})
  }

  function Extra(names: seq<string>): (r: Domains)
    ensures |r| == |names| && forall i :: 0 <= i < |r| ==> r[i] == DomainRow(names[i], false)
  {
    if names == [] then [] else [DomainRow(names[0], false)] + Extra(names[1..])
  }

  /** `seed_domains`, of a domain spelled in lower case. */
  function Seeded(ds: Domains, primary: Domain, extras: seq<string>): Domains {
    if ds != [] then ds
    else [DomainRow(primary.given, true)] + Extra(Kept(extras, {primary.NameNoPort()}))
  }

  lemma {:induction false} KeptHosts(extras: seq<string>, seen: set<string>)
    ensures forall n :: n in Kept(extras, seen) ==> BeforeColon(n) !in seen
    ensures forall i, j :: 0 <= i < j < |Kept(extras, seen)| ==>
              BeforeColon(Kept(extras, seen)[i]) != BeforeColon(Kept(extras, seen)[j])
  {
    if extras != [] {
      if BeforeColon(extras[0]) in seen {
        KeptHosts(extras[1..], seen);
      } else {
        KeptHosts(extras[1..], seen + {BeforeColon(extras[0])});
      }
    }
  }

  lemma {:induction false} KeptCovers(extras: seq<string>, seen: set<string>, n: string)
    requires n in extras
    ensures BeforeColon(n) in seen || exists m :: m in Kept(extras, seen) && BeforeColon(m) == BeforeColon(n)
    ensures forall m :: m in Kept(extras, seen) ==> m in extras
  {
    var rest := if BeforeColon(extras[0]) in seen then seen else seen + {BeforeColon(extras[0])};
    if |extras| > 1 {
      KeptCovers(extras[1..], rest, if n in extras[1..] then n else extras[1]);
    }
    if n == extras[0] && BeforeColon(n) !in seen {
      assert n in Kept(extras, seen);
    }
  }

  /** Seeding an empty table leaves a row for the host of the primary and for that of every extra, none
      for any other; a table with rows stays as it is. */
  lemma SeededRows(ds: Domains, primary: Domain, extras: seq<string>)
    requires primary.given == Lower(primary.given)
    ensures ds != [] ==> Seeded(ds, primary, extras) == ds
    ensures ds == [] ==>
              var r := Seeded(ds, primary, extras);
              && (forall x :: x in r ==> x == DomainRow(primary.given, true) || (x.name in extras && !x.isPrimary))
              && DomainRow(primary.given, true) in r
              && forall n :: n in extras ==> exists x :: x in r && BeforeColon(x.name) == BeforeColon(n)
  {
    var seen := {primary.NameNoPort()};
    var kept := Kept(extras, seen);
    var r := Seeded([], primary, extras);
    assert BeforeColon(primary.given) == primary.NameNoPort();
    assert r[0] in r;
    forall n | n in extras ensures exists x :: x in r && BeforeColon(x.name) == BeforeColon(n) {
      KeptCovers(extras, seen, n);
      if m :| m in kept && BeforeColon(m) == BeforeColon(n) {
        var i :| 0 <= i < |kept| && kept[i] == m;
        assert r[i + 1].name == m && r[i + 1] in r;
      }
    }
    forall x | x in r ensures x == DomainRow(primary.given, true) || (x.name in extras && !x.isPrimary) {
      var i :| 0 <= i < |r| && r[i] == x;
      if i > 0 {
        assert kept[i - 1] in kept && extras != [];
        KeptCovers(extras, seen, extras[0]);
      }
    }
  }

  lemma SeedingMakesOnePrimary(primary: Domain, extras: seq<string>)
    requires primary.given == Lower(primary.given)
    ensures var r := Seeded([], primary, extras); UniqueNames(r) && PrimaryIs(r, primary.given)
  {
    var seen := {primary.NameNoPort()};
    KeptHosts(extras, seen);
    var kept := Kept(extras, seen);
    assert forall i :: 0 <= i < |kept| ==> kept[i] in kept;
    assert BeforeColon(primary.given) == primary.NameNoPort();
    assert Seeded([], primary, extras)[0] == DomainRow(primary.given, true);
  }
}
