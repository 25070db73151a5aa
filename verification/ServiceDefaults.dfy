/**
 Which provider serves a service by default (core/service_interface/services.py).

 App ids are sequences of character codes, compared as Python compares strings; `rank` orders
 the version texts as `packaging.Version` does, and may rank two texts alike.
 */
module ServiceDefaults {
  import opened Options
  import opened ReleaseTags
  import opened Sequences

  type AppId = seq<nat>
  type Service = string

  datatype Provider = Provider(service: Service, app: AppId, version: string)

  datatype Tables = Tables(providers: seq<Provider>, created: map<AppId, int>, picks: map<Service, AppId>)

  /** What does not change while the tables do. */
  datatype Setting = Setting(rank: string -> int, builtin: Service -> bool, router: AppId)

  /** The rows of the query behind `_incumbent_provider_id`. */
  datatype Candidate = Candidate(app: AppId, rank: int, created: int)

  function Candidates(rows: seq<Provider>, created: map<AppId, int>, rank: string -> int,
                      service: Service): seq<Candidate> {
    if rows == [] then []
    else
      var rest := Candidates(rows[1..], created, rank, service);
      if rows[0].service == service && rows[0].app in created
      then [Candidate(rows[0].app, rank(rows[0].version), created[rows[0].app])] + rest
      else rest
  }

  /** `a` was installed earlier; in the same second the later version, then the greater id, wins.
      Neither of two rows of one app and rank beats the other. */
  predicate Beats(a: Candidate, b: Candidate) {
    a.created < b.created
    || (a.created == b.created && (a.rank > b.rank || (a.rank == b.rank && Less(b.app, a.app))))
  }

  predicate IsIncumbent(cs: seq<Candidate>, c: Candidate) { c in cs && forall d :: d in cs ==> !Beats(d, c) }

  // ---- the incumbent -----------------------------------------------------------------------------

  function Oldest(cs: seq<Candidate>): int
    requires cs != []
  {
    if |cs| == 1 then cs[0].created
    else if cs[0].created < Oldest(cs[1..]) then cs[0].created else Oldest(cs[1..])
  }

  function Tied(cs: seq<Candidate>, created: int): seq<Candidate> {
    if cs == [] then [] else (if cs[0].created == created then [cs[0]] else []) + Tied(cs[1..], created)
  }

  predicate KeyBelow(a: Candidate, b: Candidate) { a.rank < b.rank || (a.rank == b.rank && Less(a.app, b.app)) }

  function Latest(cs: seq<Candidate>): Candidate
    requires cs != []
  {
    if |cs| == 1 then cs[0]
    else var m := Latest(cs[1..]); if KeyBelow(cs[0], m) then m else cs[0]
  }

  lemma {:induction false} OldestIsLeast(cs: seq<Candidate>)
    requires cs != []
    ensures forall c :: c in cs ==> Oldest(cs) <= c.created
    ensures exists c :: c in cs && c.created == Oldest(cs)
  {
    if |cs| > 1 {
      OldestIsLeast(cs[1..]);
      forall c | c in cs ensures Oldest(cs) <= c.created {
        assert c == cs[0] || c in cs[1..];
      }
      var c :| c in cs[1..] && c.created == Oldest(cs[1..]);
      assert c in cs && cs[0] in cs;
    } else {
      assert cs[0] in cs;
    }
  }

  lemma {:induction false} TiedRows(cs: seq<Candidate>, created: int)
    ensures forall c :: c in Tied(cs, created) <==> c in cs && c.created == created
  {
    if cs != [] {
      TiedRows(cs[1..], created);
    }
  }

  lemma {:induction false} LatestIsGreatest(cs: seq<Candidate>)
    requires cs != []
    ensures Latest(cs) in cs && forall c :: c in cs ==> !KeyBelow(Latest(cs), c)
  {
    LessTotal(cs[0].app, cs[0].app);
    if |cs| > 1 {
      LatestIsGreatest(cs[1..]);
      var m := Latest(cs[1..]);
      LessTotal(m.app, cs[0].app);
      forall c | c in cs ensures !KeyBelow(Latest(cs), c) {
        if c != cs[0] {
          assert c in cs[1..];
          LessTotal(m.app, c.app);
          LessTotal(cs[0].app, c.app);
          if Less(m.app, cs[0].app) && Less(cs[0].app, c.app) { LessTransitive(m.app, cs[0].app, c.app); }
        }
      }
    }
  }

  function Incumbent(cs: seq<Candidate>): Option<Candidate> {
    if cs == [] then None
    else
      var tied := Tied(cs, Oldest(cs));
      if tied == [] then None else Some(Latest(tied))
  }

  lemma NobodyBeatsTheIncumbent(cs: seq<Candidate>)
    ensures cs == [] <==> Incumbent(cs) == None
    ensures cs != [] ==> IsIncumbent(cs, Incumbent(cs).value)
  {
    if cs != [] {
      OldestIsLeast(cs);
      TiedRows(cs, Oldest(cs));
      var tied := Tied(cs, Oldest(cs));
      assert tied != [] by {
        var c :| c in cs && c.created == Oldest(cs);
        assert c in tied;
      }
      LatestIsGreatest(tied);
      var best := Latest(tied);
      forall c | c in cs ensures !Beats(c, best) {
        if c.created == best.created {
          assert c in tied;
        }
      }
    }
  }

  /** Two that do not beat each other are rows of one app. */
  lemma TiesAreOneApp(a: Candidate, b: Candidate)
    requires !Beats(a, b) && !Beats(b, a)
    ensures a == b
  {
    LessTotal(a.app, b.app);
  }

  /** The incumbent is determined by which rows there are, not by their order. */
  lemma IncumbentIsUnique(cs: seq<Candidate>, ds: seq<Candidate>)
    requires forall c :: c in cs <==> c in ds
    ensures Incumbent(cs) == Incumbent(ds)
  {
    NobodyBeatsTheIncumbent(cs);
    NobodyBeatsTheIncumbent(ds);
    assert cs != [] ==> cs[0] in ds;
    assert ds != [] ==> ds[0] in cs;
    if cs != [] {
      TiesAreOneApp(Incumbent(cs).value, Incumbent(ds).value);
    }
  }

  // ---- the default -------------------------------------------------------------------------------

  function IncumbentOf(t: Tables, g: Setting, service: Service): Option<Candidate> {
    Incumbent(Candidates(t.providers, t.created, g.rank, service))
  }

  /** The owner's pick; the router's builtin; the incumbent. */
  function Default(t: Tables, g: Setting, service: Service): Option<AppId> {
    if service in t.picks then Some(t.picks[service])
    else if g.builtin(service) then Some(g.router)
    else
      var c := IncumbentOf(t, g, service);
      if c.Some? then Some(c.value.app) else None
  }

  predicate Provides(t: Tables, service: Service, app: AppId) {
    app in t.created && exists p :: p in t.providers && p.service == service && p.app == app
  }

  predicate IsCandidate(p: Provider, created: map<AppId, int>, rank: string -> int, service: Service, c: Candidate) {
    p.service == service && p.app in created && c == Candidate(p.app, rank(p.version), created[p.app])
  }

  ghost predicate FromARow(rows: seq<Provider>, created: map<AppId, int>, rank: string -> int, service: Service,
                           c: Candidate) {
    exists p :: p in rows && IsCandidate(p, created, rank, service, c)
  }

  lemma {:induction false} CandidateRows(rows: seq<Provider>, created: map<AppId, int>, rank: string -> int,
                                         service: Service, c: Candidate)
    ensures c in Candidates(rows, created, rank, service) <==> FromARow(rows, created, rank, service, c)
  {
    if rows != [] {
      CandidateRows(rows[1..], created, rank, service, c);
      if FromARow(rows[1..], created, rank, service, c) {
        var p :| p in rows[1..] && IsCandidate(p, created, rank, service, c);
        assert p in rows;
      }
      if IsCandidate(rows[0], created, rank, service, c) {
        assert rows[0] in rows;
      } else if FromARow(rows, created, rank, service, c) {
        var p :| p in rows && IsCandidate(p, created, rank, service, c);
        assert p in rows[1..];
      }
    }
  }

  /** The default does not depend on the order the rows come in. */
  lemma RowOrderDoesNotMatter(t: Tables, u: Tables, g: Setting, service: Service)
    requires (forall p :: p in t.providers <==> p in u.providers) && u.created == t.created && u.picks == t.picks
    ensures Default(u, g, service) == Default(t, g, service)
  {
    var cs := Candidates(t.providers, t.created, g.rank, service);
    var ds := Candidates(u.providers, u.created, g.rank, service);
    forall c ensures c in cs <==> c in ds {
      CandidateRows(t.providers, t.created, g.rank, service, c);
      CandidateRows(u.providers, u.created, g.rank, service, c);
    }
    IncumbentIsUnique(cs, ds);
  }

  /** There is a default unless nothing provides the service at all. */
  lemma NoDefaultMeansNoProvider(t: Tables, g: Setting, service: Service)
    ensures Default(t, g, service) == None <==>
            service !in t.picks && !g.builtin(service) && forall app :: !Provides(t, service, app)
  {
    var cs := Candidates(t.providers, t.created, g.rank, service);
    NobodyBeatsTheIncumbent(cs);
    if cs != [] {
      CandidateRows(t.providers, t.created, g.rank, service, cs[0]);
      assert Provides(t, service, cs[0].app);
    }
    if app :| Provides(t, service, app) {
      var p :| p in t.providers && p.service == service && p.app == app;
      var c := Candidate(app, g.rank(p.version), t.created[app]);
      assert IsCandidate(p, t.created, g.rank, service, c);
      CandidateRows(t.providers, t.created, g.rank, service, c);
    }
  }

  /** An unpicked default is a provider that every other one was installed after, or ties with. */
  lemma UnpickedDefaultIsTheOldest(t: Tables, g: Setting, service: Service, other: AppId)
    requires service !in t.picks && !g.builtin(service) && Provides(t, service, other)
    ensures var d := Default(t, g, service);
            d.Some? && Provides(t, service, d.value) && t.created[d.value] <= t.created[other]
  {
    var cs := Candidates(t.providers, t.created, g.rank, service);
    NobodyBeatsTheIncumbent(cs);
    var p :| p in t.providers && p.service == service && p.app == other;
    var c := Candidate(other, g.rank(p.version), t.created[other]);
    assert IsCandidate(p, t.created, g.rank, service, c);
    CandidateRows(t.providers, t.created, g.rank, service, c);
    CandidateRows(t.providers, t.created, g.rank, service, Incumbent(cs).value);
  }

  /** Among providers installed in the same second the later version wins, and of one version the
      greater id. */
  lemma TiesGoToTheLaterVersion(t: Tables, g: Setting, service: Service, p: Provider)
    requires service !in t.picks && !g.builtin(service)
    requires p in t.providers && p.service == service && p.app in t.created
    ensures var d := Default(t, g, service);
            d.Some? && d.value in t.created
            && (t.created[d.value] == t.created[p.app] ==>
                  exists q :: q in t.providers && q.service == service && q.app == d.value
                    && (g.rank(q.version) > g.rank(p.version)
                        || (g.rank(q.version) == g.rank(p.version) && (q.app == p.app || Less(p.app, q.app)))))
  {
    var cs := Candidates(t.providers, t.created, g.rank, service);
    NobodyBeatsTheIncumbent(cs);
    var c := Candidate(p.app, g.rank(p.version), t.created[p.app]);
    assert IsCandidate(p, t.created, g.rank, service, c);
    CandidateRows(t.providers, t.created, g.rank, service, c);
    var best := Incumbent(cs).value;
    CandidateRows(t.providers, t.created, g.rank, service, best);
    var q :| q in t.providers && IsCandidate(q, t.created, g.rank, service, best);
    LessTotal(best.app, p.app);
    assert !Beats(c, best);
  }

  // ---- registering, picking, clearing ----------------------------------------------------------------

  function Without(rows: seq<Provider>, app: AppId): seq<Provider> {
    if rows == [] then [] else (if rows[0].app == app then [] else [rows[0]]) + Without(rows[1..], app)
  }

  /** `INSERT OR REPLACE`: the old row of that service, app and version goes, the new one comes last. */
  function Put(rows: seq<Provider>, p: Provider): seq<Provider> { Dropped(rows, p) + [p] }

  function Dropped(rows: seq<Provider>, p: Provider): seq<Provider> {
    if rows == [] then []
    else (if rows[0] == p then [] else [rows[0]]) + Dropped(rows[1..], p)
  }

  /** What a manifest provides: service and version. */
  function PutAll(rows: seq<Provider>, app: AppId, provided: seq<(Service, string)>): seq<Provider> {
    if provided == [] then rows
    else
      var n := |provided| - 1;
      Put(PutAll(rows, app, provided[..n]), Provider(provided[n].0, app, provided[n].1))
  }

  function Registered(t: Tables, app: AppId, provided: seq<(Service, string)>): Tables {
    t.(providers := PutAll(Without(t.providers, app), app, provided))
  }

  lemma {:induction false} WithoutRows(rows: seq<Provider>, app: AppId)
    ensures forall p :: p in Without(rows, app) <==> p in rows && p.app != app
  {
    if rows != [] {
      WithoutRows(rows[1..], app);
    }
  }

  lemma {:induction false} DroppedRows(rows: seq<Provider>, p: Provider)
    ensures forall q :: q in Dropped(rows, p) <==> q in rows && q != p
  {
    if rows != [] {
      DroppedRows(rows[1..], p);
    }
  }

  lemma {:induction false} PutAllRows(rows: seq<Provider>, app: AppId, provided: seq<(Service, string)>, p: Provider)
    ensures p in PutAll(rows, app, provided) <==> p in rows || (p.app == app && (p.service, p.version) in provided)
  {
    if provided != [] {
      var n := |provided| - 1;
      PutAllRows(rows, app, provided[..n], p);
      DroppedRows(PutAll(rows, app, provided[..n]), Provider(provided[n].0, app, provided[n].1));
      assert provided == provided[..n] + [provided[n]];
    }
  }

  /** Registering gives the app exactly the services its manifest names, one row a version, and
      leaves every other app's rows alone. */
  lemma RegisteredRows(t: Tables, app: AppId, provided: seq<(Service, string)>, p: Provider)
    ensures p in Registered(t, app, provided).providers <==>
            if p.app == app then (p.service, p.version) in provided else p in t.providers
  {
    WithoutRows(t.providers, app);
    PutAllRows(Without(t.providers, app), app, provided, p);
  }

  lemma {:induction false} DroppingKeepsDistinct(rows: seq<Provider>, p: Provider)
    requires Distinct(rows)
    ensures Distinct(Dropped(rows, p))
  {
    if rows != [] {
      DroppingKeepsDistinct(rows[1..], p);
      DroppedRows(rows[1..], p);
      assert rows[0] !in rows[1..];
    }
  }

  /** The table's key is kept: no row twice. */
  lemma {:induction false} RegisteringKeepsTheKey(rows: seq<Provider>, app: AppId, provided: seq<(Service, string)>)
    requires Distinct(rows)
    ensures Distinct(PutAll(rows, app, provided))
  {
    if provided != [] {
      var n := |provided| - 1;
      RegisteringKeepsTheKey(rows, app, provided[..n]);
      var before, last := PutAll(rows, app, provided[..n]), Provider(provided[n].0, app, provided[n].1);
      DroppingKeepsDistinct(before, last);
      DroppedRows(before, last);
      DistinctSnoc(Dropped(before, last), last);
    }
  }

  /** One app may hold a service at two versions; both rows stay. */
  lemma TwoVersionsAreTwoRows(app: AppId, service: Service, v: string, w: string)
    ensures var rows := PutAll([], app, [(service, v), (service, w)]);
            Provider(service, app, v) in rows && Provider(service, app, w) in rows
  {
    PutAllRows([], app, [(service, v), (service, w)], Provider(service, app, v));
    PutAllRows([], app, [(service, v), (service, w)], Provider(service, app, w));
  }

  /** Re-registering an app, on every install, start and reload, never changes an owner's pick. */
  lemma RegisteringKeepsPicks(t: Tables, g: Setting, app: AppId, provided: seq<(Service, string)>, service: Service)
    requires service in t.picks || g.builtin(service)
    ensures Default(Registered(t, app, provided), g, service) == Default(t, g, service)
  {
  }

  /** Installing a strictly later provider never moves a service off the app that serves it. */
  lemma LaterInstallMovesNothing(t: Tables, g: Setting, app: AppId, created: int, provided: seq<(Service, string)>,
                                 service: Service)
    requires forall p :: p in t.providers ==> p.app in t.created
    requires app !in t.created && forall a :: a in t.created ==> t.created[a] < created
    requires Default(t, g, service).Some?
    ensures var later := t.(created := t.created[app := created]);
            Default(Registered(later, app, provided), g, service) == Default(t, g, service)
  {
    var u := Registered(t.(created := t.created[app := created]), app, provided);
    if service !in t.picks && !g.builtin(service) {
      forall p: Provider | p.app != app ensures p in u.providers <==> p in t.providers {
        RegisteredRows(t.(created := u.created), app, provided, p);
      }
      var cs := Candidates(t.providers, t.created, g.rank, service);
      var ds := Candidates(u.providers, u.created, g.rank, service);
      LaterCandidates(t, u, g, app, service);
      YoungerCandidatesLose(cs, ds, created);
    }
  }

  lemma YoungerCandidatesLose(cs: seq<Candidate>, ds: seq<Candidate>, created: int)
    requires cs != []
    requires forall c :: c in cs ==> c in ds && c.created < created
    requires forall d :: d in ds ==> d in cs || d.created == created
    ensures Incumbent(ds) == Incumbent(cs)
  {
    assert cs[0] in ds;
    NobodyBeatsTheIncumbent(cs);
    NobodyBeatsTheIncumbent(ds);
    var best, other := Incumbent(cs).value, Incumbent(ds).value;
    assert !Beats(best, other) && other in cs;
    TiesAreOneApp(best, other);
  }

  /** A later app adds candidates that are all younger, and takes none away. */
  lemma LaterCandidates(t: Tables, u: Tables, g: Setting, app: AppId, service: Service)
    requires forall p: Provider :: p.app != app ==> (p in u.providers <==> p in t.providers)
    requires app !in t.created && app in u.created && u.created == t.created[app := u.created[app]]
    requires forall a :: a in t.created ==> t.created[a] < u.created[app]
    ensures var cs := Candidates(t.providers, t.created, g.rank, service);
            var ds := Candidates(u.providers, u.created, g.rank, service);
            && (forall c :: c in cs ==> c in ds && c.created < u.created[app])
            && (forall d :: d in ds ==> d in cs || d.created == u.created[app])
  {
    var cs := Candidates(t.providers, t.created, g.rank, service);
    var ds := Candidates(u.providers, u.created, g.rank, service);
    forall c | c in cs ensures c in ds && c.created < u.created[app] {
      CandidateRows(t.providers, t.created, g.rank, service, c);
      var p :| p in t.providers && IsCandidate(p, t.created, g.rank, service, c);
      assert p in u.providers && IsCandidate(p, u.created, g.rank, service, c);
      CandidateRows(u.providers, u.created, g.rank, service, c);
    }
    forall d | d in ds ensures d in cs || d.created == u.created[app] {
      CandidateRows(u.providers, u.created, g.rank, service, d);
      var p :| p in u.providers && IsCandidate(p, u.created, g.rank, service, d);
      if p.app != app {
        assert p in t.providers && IsCandidate(p, t.created, g.rank, service, d);
        CandidateRows(t.providers, t.created, g.rank, service, d);
      }
    }
  }

  class ServiceTables {
    var tables: Tables

    constructor (t: Tables)
      ensures tables == t
    {
      tables := t;
    }

    method RegisterServicesProvidedByApp(app: AppId, provided: seq<(Service, string)>)
      modifies this
      ensures tables == Registered(old(tables), app, provided)
    {
      var rows := Without(tables.providers, app);
      for i := 0 to |provided|
        invariant rows == PutAll(Without(tables.providers, app), app, provided[..i])
        invariant tables == old(tables)
      {
        assert provided[..i + 1][..i] == provided[..i];
        rows := Put(rows, Provider(provided[i].0, app, provided[i].1));
      }
      assert provided[..|provided|] == provided;
      tables := tables.(providers := rows);
    }

    /** Succeeds exactly for a provider of the service, and then reads back as that provider. */
    method SetDefault(g: Setting, service: Service, app: AppId) returns (ok: bool)
      modifies this
      ensures ok <==> if app == g.router then g.builtin(service)
                      else exists p :: p in old(tables).providers && p.service == service && p.app == app
      ensures ok ==> Default(tables, g, service) == Some(app)
      ensures !ok ==> tables == old(tables)
      ensures tables.providers == old(tables).providers && tables.created == old(tables).created
      ensures forall s :: s != service ==> Default(tables, g, s) == Default(old(tables), g, s)
    {
      if app == g.router {
        if !g.builtin(service) { return false; }
        ClearDefault(service);
        return true;
      }
      if !(exists p :: p in tables.providers && p.service == service && p.app == app) { return false; }
      tables := tables.(picks := tables.picks[service := app]);
      ok := true;
    }

    method ClearDefault(service: Service)
      modifies this
      ensures tables == old(tables).(picks := old(tables).picks - {service})
    {
      tables := tables.(picks := tables.picks - {service});
    }
  }
}
