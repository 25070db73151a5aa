/**
 Which configured domain owns a Host header, which app it names, and the links
 built the other way round (core/domains.py, core/apps.py).

 Hosts are ASCII: `Lower` maps 'A'..'Z' only.
 */
module HostMatching {
  import opened Options
  import opened Strings

  // ---- the string operations the source uses ---------------------------------

  function LowerChar(c: char): char {
    if 'A' <= c <= 'Z' then (c as int + 32) as char else c
  }

  function Lower(s: string): (r: string)
    ensures |r| == |s|
    ensures forall i :: 0 <= i < |s| ==> r[i] == LowerChar(s[i])
  {
    if s == "" then "" else [LowerChar(s[0])] + Lower(s[1..])
  }

  /** `s.split(":")[0]`. */
  function BeforeColon(s: string): (r: string)
    ensures r <= s && ':' !in r
    ensures |r| < |s| ==> s[|r|] == ':'
  {
    if s == "" || s[0] == ':' then "" else [s[0]] + BeforeColon(s[1..])
  }

  predicate EndsWith(s: string, suffix: string) {
    |suffix| <= |s| && s[|s| - |suffix|..] == suffix
  }

  /** Where the last ':' of `s[..n]` is, or -1: the cut point of `rpartition(":")`. */
  function LastColon(s: string, n: nat := |s|): (k: int)
    requires n <= |s|
    ensures -1 <= k < n
    ensures k >= 0 ==> s[k] == ':'
    ensures forall i :: k < i < n ==> s[i] != ':'
  {
    if n == 0 then -1 else if s[n - 1] == ':' then n - 1 else LastColon(s, n - 1)
  }

  // ---- domains ------------------------------------------------------------------

  /** `given` is the name handed to the constructor, which stores it lower-cased. */
  datatype Domain = Domain(given: string, tls: bool, mdns: bool) {
    function NameNoPort(): string { BeforeColon(Lower(given)) }

    predicate Owns(host: string) {
      var h := HostKey(host);
      NameNoPort() != "" && (h == NameNoPort() || EndsWith(h, "." + NameNoPort()))
    }

    predicate IsAppSubdomain(host: string) {
      Owns(host) && HostKey(host) != NameNoPort()
    }
  }

  /** A host header without its port, lower-cased: what every comparison is made on. */
  function HostKey(host: string): string { Lower(BeforeColon(host)) }

  predicate LongerThan(d: Domain, best: Option<Domain>) {
    best == None || |d.NameNoPort()| > |best.value.NameNoPort()|
  }

  /** The domain a left-to-right scan ends with. */
  function Best(domains: seq<Domain>, host: string): Option<Domain> {
    if domains == [] then None
    else
      var before := Best(domains[..|domains| - 1], host);
      var d := domains[|domains| - 1];
      if d.Owns(host) && LongerThan(d, before) then Some(d) else before
  }

  method Match(domains: seq<Domain>, host: string) returns (best: Option<Domain>)
    ensures best == Best(domains, host)
    ensures best == None <==> forall d :: d in domains ==> !d.Owns(host)
    ensures best.Some? ==>
              && best.value in domains && best.value.Owns(host)
              && forall d :: d in domains && d.Owns(host) ==> |d.NameNoPort()| <= |best.value.NameNoPort()|
    ensures best.Some? ==> exists i :: FirstLongest(domains, host, i) && domains[i] == best.value
  {
    best := None;
    var i := 0;
    while i < |domains|
      invariant 0 <= i <= |domains|
      invariant best == Best(domains[..i], host)
    {
      assert domains[..i + 1][..i] == domains[..i];
      if domains[i].Owns(host) && LongerThan(domains[i], best) {
        best := Some(domains[i]);
      }
      i := i + 1;
    }
    assert domains[..i] == domains;
    BestIsAnOwner(domains, host);
    if best.Some? { BestIsTheFirst(domains, host); }
  }

  // ---- most specific, whatever the order ---------------------------------------

  lemma {:induction false} BestIsAnOwner(domains: seq<Domain>, host: string)
    ensures Best(domains, host) == None <==> forall d :: d in domains ==> !d.Owns(host)
    ensures Best(domains, host).Some? ==>
              var b := Best(domains, host).value;
              && b in domains && b.Owns(host)
              && forall d :: d in domains && d.Owns(host) ==> |d.NameNoPort()| <= |b.NameNoPort()|
  {
    if domains != [] {
      var init, last := domains[..|domains| - 1], domains[|domains| - 1];
      assert domains == init + [last];
      BestIsAnOwner(init, host);
    }
  }

  /** An owner longer than every owner before it, and no shorter than any after it. */
  predicate FirstLongest(domains: seq<Domain>, host: string, i: int) {
    && 0 <= i < |domains| && domains[i].Owns(host)
    && (forall j :: 0 <= j < i && domains[j].Owns(host) ==> |domains[j].NameNoPort()| < |domains[i].NameNoPort()|)
    && forall j :: i < j < |domains| && domains[j].Owns(host) ==> |domains[j].NameNoPort()| <= |domains[i].NameNoPort()|
  }

  lemma StaysFirst(init: seq<Domain>, last: Domain, host: string, i: int)
    requires FirstLongest(init, host, i)
    requires last.Owns(host) ==> |last.NameNoPort()| <= |init[i].NameNoPort()|
    ensures FirstLongest(init + [last], host, i)
  {
  }

  lemma BecomesFirst(init: seq<Domain>, last: Domain, host: string)
    requires last.Owns(host)
    requires forall d :: d in init && d.Owns(host) ==> |d.NameNoPort()| < |last.NameNoPort()|
    ensures FirstLongest(init + [last], host, |init|)
  {
    forall j | 0 <= j < |init| && init[j].Owns(host) ensures |init[j].NameNoPort()| < |last.NameNoPort()| {
      assert init[j] in init;
    }
  }

  /** Of several longest owners the scan ends with the first. */
  lemma {:induction false} BestIsTheFirst(domains: seq<Domain>, host: string)
    requires Best(domains, host).Some?
    ensures exists i :: FirstLongest(domains, host, i) && domains[i] == Best(domains, host).value
  {
    var init, last := domains[..|domains| - 1], domains[|domains| - 1];
    assert domains == init + [last];
    BestIsAnOwner(init, host);
    var before := Best(init, host);
    if last.Owns(host) && LongerThan(last, before) {
      BecomesFirst(init, last, host);
      assert FirstLongest(domains, host, |init|);
    } else {
      BestIsTheFirst(init, host);
      var i :| FirstLongest(init, host, i) && init[i] == before.value;
      StaysFirst(init, last, host, i);
      assert FirstLongest(domains, host, i) && domains[i] == before.value;
    }
  }

  /** A domain owns its own name and whatever has a dot and that name at its end; a nameless one owns
      nothing. */
  lemma OwnsExactlyWhen(d: Domain, host: string)
    ensures d.Owns(host) <==>
            && d.NameNoPort() != ""
            && (HostKey(host) == d.NameNoPort()
                || exists front: string :: HostKey(host) == front + "." + d.NameNoPort())
  {
    DotInFront(HostKey(host), d.NameNoPort());
  }

  lemma DotInFront(h: string, n: string)
    ensures EndsWith(h, "." + n) <==> exists front: string :: h == front + "." + n
  {
    if EndsWith(h, "." + n) {
      var front := h[..|h| - |n| - 1];
      assert h == front + h[|h| - |n| - 1..];
      assert h == front + "." + n;
    }
    if front: string :| h == front + "." + n {
      assert h[|front|..] == "." + n;
    }
  }

  /** Two owners of one host whose names are equally long have the same name. */
  lemma OwnersOfEqualLengthAgree(d: Domain, e: Domain, host: string)
    requires d.Owns(host) && e.Owns(host)
    requires |d.NameNoPort()| == |e.NameNoPort()|
    ensures d.NameNoPort() == e.NameNoPort()
  {
    OwnerIsASuffix(d, host);
    OwnerIsASuffix(e, host);
  }

  lemma OwnerIsASuffix(d: Domain, host: string)
    requires d.Owns(host)
    ensures EndsWith(HostKey(host), d.NameNoPort())
    ensures HostKey(host) != d.NameNoPort() ==>
              var cut := |HostKey(host)| - |d.NameNoPort()| - 1;
              cut >= 0 && HostKey(host)[cut] == '.'
  {
    var h, n := HostKey(host), d.NameNoPort();
    if h != n {
      var dotted := "." + n;
      assert h[|h| - |dotted|..] == dotted;
      assert h[|h| - |n|..] == h[|h| - |dotted|..][1..];
      assert h[|h| - |dotted|] == dotted[0];
    }
  }

  /** The order in which the domain rows come back never changes the answer. */
  lemma MatchIgnoresRowOrder(domains: seq<Domain>, shuffled: seq<Domain>, host: string)
    requires forall d :: d in domains <==> d in shuffled
    ensures Best(domains, host).Some? <==> Best(shuffled, host).Some?
    ensures Best(domains, host).Some? ==>
              Best(domains, host).value.NameNoPort() == Best(shuffled, host).value.NameNoPort()
  {
    BestIsAnOwner(domains, host);
    BestIsAnOwner(shuffled, host);
    if Best(domains, host).Some? {
      OwnersOfEqualLengthAgree(Best(domains, host).value, Best(shuffled, host).value, host);
    }
  }

  // ---- host header -> app -------------------------------------------------------

  /** `apps` holds the names `find_app_by_name` knows. */
  function AppFromHostname(host: string, domains: seq<Domain>, apps: set<string>): Option<string> {
    var matched := Best(domains, host);
    if matched == None then None
    else
      var zone := matched.value.NameNoPort();
      var h := HostKey(host);
      if h == zone then None  // the domain itself: the router, not an app
      else
        BestIsAnOwner(domains, host);
        OwnerIsASuffix(matched.value, host);
        NamedApp(h[..|h| - (|zone| + 1)], apps)
  }

  function NamedApp(name: string, apps: set<string>): Option<string> {
    if '.' !in name && name in apps then Some(name) else None
  }

  /** Only a subdomain of the matched domain, never the domain itself, is taken for an app. */
  lemma AppsLiveOnSubdomains(host: string, domains: seq<Domain>, apps: set<string>)
    requires AppFromHostname(host, domains, apps).Some?
    ensures Best(domains, host).Some? && Best(domains, host).value in domains
    ensures Best(domains, host).value.IsAppSubdomain(host)
  {
    BestIsAnOwner(domains, host);
  }

  /** What is served at a host is the app whose name, dot-free, stands in front of the matched domain. */
  lemma AppIsTheLabelInFront(host: string, domains: seq<Domain>, apps: set<string>, app: string)
    ensures AppFromHostname(host, domains, apps) == Some(app) <==>
            && Best(domains, host).Some? && '.' !in app && app in apps
            && HostKey(host) == app + "." + Best(domains, host).value.NameNoPort()
  {
    BestIsAnOwner(domains, host);
    if Best(domains, host).Some? {
      var h, d := HostKey(host), Best(domains, host).value;
      OwnerIsASuffix(d, host);
      if h != d.NameNoPort() {
        InFrontOf(h, d.NameNoPort(), app);
      }
    }
  }

  lemma InFrontOf(h: string, zone: string, app: string)
    requires EndsWith(h, zone) && |h| > |zone| && h[|h| - |zone| - 1] == '.'
    ensures h[..|h| - (|zone| + 1)] == app <==> h == app + "." + zone
  {
    var cut := |h| - (|zone| + 1);
    assert h == h[..cut] + [h[cut]] + h[cut + 1..];
    if h == app + "." + zone {
      assert |app| == cut && h[..cut] == app;
    }
  }

  /** The ":port" a request arrived on, or "" when it named none. */
  function PortSuffix(requestNetloc: string): (r: string)
    ensures r == "" || r[0] == ':'
  {
    var k := LastColon(requestNetloc);
    if k >= 0 && AllDigits(requestNetloc[k + 1..]) then [':'] + requestNetloc[k + 1..] else ""
  }

  /** A colon with nothing but digits after it. */
  predicate PortAt(requestNetloc: string, k: int) {
    0 <= k < |requestNetloc| && requestNetloc[k] == ':' && AllDigits(requestNetloc[k + 1..])
  }

  lemma PortIsAtTheLastColon(requestNetloc: string, k: int)
    requires PortAt(requestNetloc, k)
    ensures LastColon(requestNetloc) == k
  {
    forall i | k < i < |requestNetloc| ensures requestNetloc[i] != ':' {
      assert requestNetloc[i] == requestNetloc[k + 1..][i - k - 1];
    }
  }

  /** What is kept of `host:port` is the colon and the digits after it; of anything else nothing. */
  lemma PortSuffixExactlyWhen(requestNetloc: string)
    ensures forall k :: PortAt(requestNetloc, k) ==> PortSuffix(requestNetloc) == requestNetloc[k..]
    ensures PortSuffix(requestNetloc) == "" <==> forall k :: 0 <= k < |requestNetloc| ==> !PortAt(requestNetloc, k)
  {
    forall k | PortAt(requestNetloc, k) ensures PortSuffix(requestNetloc) == requestNetloc[k..] {
      PortIsAtTheLastColon(requestNetloc, k);
    }
    if PortSuffix(requestNetloc) != "" {
      assert PortAt(requestNetloc, LastColon(requestNetloc));
    }
  }

  function HostWithRequestPort(host: string, requestNetloc: string): string {
    host + PortSuffix(requestNetloc)
  }

  /** The link the dashboard shows for an app under one of the instance's domains. */
  function AppLink(app: string, d: Domain, requestNetloc: string): string {
    HostWithRequestPort(app + "." + d.NameNoPort(), requestNetloc)
  }

  lemma {:induction false} BeforeColonOfPlain(s: string, rest: string)
    requires ':' !in s
    requires rest == "" || rest[0] == ':'
    ensures BeforeColon(s + rest) == s
  {
    if s == "" {
      assert s + rest == rest;
    } else {
      assert (s + rest)[1..] == s[1..] + rest;
      BeforeColonOfPlain(s[1..], rest);
    }
  }

  function UpperChar(c: char): char {
    if 'a' <= c <= 'z' then (c as int - 32) as char else c
  }

  function Upper(s: string): (r: string)
    ensures |r| == |s|
    ensures forall i :: 0 <= i < |s| ==> r[i] == UpperChar(s[i])
  {
    if s == "" then "" else [UpperChar(s[0])] + Upper(s[1..])
  }

  lemma {:induction false} BeforeColonInLowerCase(s: string)
    ensures Lower(BeforeColon(s)) == BeforeColon(Lower(s))
  {
    if s != "" && s[0] != ':' {
      assert Lower(s)[1..] == Lower(s[1..]);
      BeforeColonInLowerCase(s[1..]);
    }
  }

  /** Spellings that differ in case alone belong to the same domain, and name the same app. */
  lemma CaseDoesNotMatter(host: string, other: string, domains: seq<Domain>, apps: set<string>)
    requires Lower(host) == Lower(other)
    ensures HostKey(host) == HostKey(other)
    ensures forall d :: d in domains ==> (d.Owns(host) <==> d.Owns(other))
    ensures Best(domains, host) == Best(domains, other)
    ensures AppFromHostname(host, domains, apps) == AppFromHostname(other, domains, apps)
  {
    BeforeColonInLowerCase(host);
    BeforeColonInLowerCase(other);
    BestByKey(domains, host, other);
  }

  lemma {:induction false} BestByKey(domains: seq<Domain>, host: string, other: string)
    requires HostKey(host) == HostKey(other)
    ensures Best(domains, host) == Best(domains, other)
  {
    if domains != [] {
      BestByKey(domains[..|domains| - 1], host, other);
    }
  }

  lemma UpperIsTheSameInLowerCase(s: string)
    ensures Lower(Upper(s)) == Lower(s)
  {
    forall i | 0 <= i < |s| ensures Lower(Upper(s))[i] == Lower(s)[i] {
    }
  }

  /** A host in capitals is the same host. */
  lemma CapitalsDoNotMatter(d: Domain, host: string)
    ensures d.Owns(Upper(host)) <==> d.Owns(host)
  {
    UpperIsTheSameInLowerCase(host);
    CaseDoesNotMatter(Upper(host), host, [d], {});
    assert d in [d];
  }

  lemma LowerIsPointwise(s: string)
    requires forall i :: 0 <= i < |s| ==> LowerChar(s[i]) == s[i]
    ensures Lower(s) == s
  {
  }

  lemma NameIsLower(d: Domain)
    ensures forall i :: 0 <= i < |d.NameNoPort()| ==> LowerChar(d.NameNoPort()[i]) == d.NameNoPort()[i]
  {
    var n := Lower(d.given);
    forall i | 0 <= i < |d.NameNoPort()| ensures LowerChar(d.NameNoPort()[i]) == d.NameNoPort()[i] {
      assert BeforeColon(n)[i] == n[i] == LowerChar(d.given[i]);
    }
  }

  predicate Plain(s: string) {
    ':' !in s && forall i :: 0 <= i < |s| ==> LowerChar(s[i]) == s[i]
  }

  lemma PortDoesNotMatter(host: string, requestNetloc: string)
    requires Plain(host)
    ensures HostKey(HostWithRequestPort(host, requestNetloc)) == host
  {
    BeforeColonOfPlain(host, PortSuffix(requestNetloc));
    LowerIsPointwise(host);
  }

  lemma LinkHostKey(app: string, d: Domain, requestNetloc: string)
    requires Plain(app)
    ensures HostKey(AppLink(app, d, requestNetloc)) == app + "." + d.NameNoPort()
  {
    NameIsLower(d);
    PortDoesNotMatter(app + "." + d.NameNoPort(), requestNetloc);
  }

  /** A link keeps the port the request came on: it ends as `host:port` does. */
  lemma LinkKeepsThePort(app: string, d: Domain, requestNetloc: string, k: int)
    requires PortAt(requestNetloc, k)
    ensures AppLink(app, d, requestNetloc) == app + "." + d.NameNoPort() + requestNetloc[k..]
  {
    PortSuffixExactlyWhen(requestNetloc);
  }

  /** A dot-free app name leaves no room for a longer owner of `app.domain` short of the host itself. */
  lemma NoOwnerBetween(app: string, d: Domain, e: Domain, host: string)
    requires '.' !in app
    requires HostKey(host) == app + "." + d.NameNoPort()
    requires e.Owns(host) && e.NameNoPort() != HostKey(host)
    ensures |e.NameNoPort()| <= |d.NameNoPort()|
  {
    OwnerIsASuffix(e, host);
    assert forall i :: 0 <= i < |app| ==> HostKey(host)[i] == app[i];
  }

  /** `host` is itself one of the configured domains. */
  predicate IsConfigured(domains: seq<Domain>, host: string) {
    exists e :: e in domains && e.NameNoPort() == host
  }

  lemma BestOfLink(app: string, d: Domain, host: string, domains: seq<Domain>)
    requires '.' !in app
    requires HostKey(host) == app + "." + d.NameNoPort()
    requires d in domains && d.NameNoPort() != ""
    ensures Best(domains, host).Some?
    ensures Best(domains, host).value.NameNoPort() ==
            if IsConfigured(domains, HostKey(host)) then HostKey(host) else d.NameNoPort()
  {
    var h := HostKey(host);
    assert h == app + ("." + d.NameNoPort());
    assert d.Owns(host);
    BestIsAnOwner(domains, host);
    var b := Best(domains, host).value;
    if IsConfigured(domains, h) {
      var e :| e in domains && e.NameNoPort() == h;
      assert e.Owns(host);
      OwnerIsASuffix(b, host);
      OwnersOfEqualLengthAgree(b, e, host);
    } else {
      NoOwnerBetween(app, d, b, host);
      OwnersOfEqualLengthAgree(b, d, host);
    }
  }

  lemma AppUnder(app: string, zone: string, host: string, domains: seq<Domain>, apps: set<string>)
    requires HostKey(host) == app + "." + zone
    requires '.' !in app
    requires Best(domains, host).Some?
    requires Best(domains, host).value.NameNoPort() in {zone, HostKey(host)}
    ensures AppFromHostname(host, domains, apps) ==
            if Best(domains, host).value.NameNoPort() == HostKey(host) then None
            else if app in apps then Some(app) else None
  {
    var h := HostKey(host);
    if Best(domains, host).value.NameNoPort() != h {
      assert h[..|h| - (|zone| + 1)] == app;
    }
  }

  /**
   Resolving inverts link building.  For every dot-free app name and every
   configured domain, with or without a port, the link leads back to exactly
   that app, unless the whole host is itself a configured domain.
   */
  lemma LinksLeadBackToTheApp(app: string, d: Domain, requestNetloc: string, domains: seq<Domain>, apps: set<string>)
    requires '.' !in app && Plain(app)
    requires d in domains && d.NameNoPort() != ""
    ensures AppFromHostname(AppLink(app, d, requestNetloc), domains, apps) ==
            if IsConfigured(domains, app + "." + d.NameNoPort()) then None
            else if app in apps then Some(app) else None
  {
    var link := AppLink(app, d, requestNetloc);
    LinkHostKey(app, d, requestNetloc);
    BestOfLink(app, d, link, domains);
    AppUnder(app, d.NameNoPort(), link, domains, apps);
  }
}
