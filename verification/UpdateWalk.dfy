/**
 The update walk (update.py, apply_after_checkout.py): release tags as stepping
 stones, an optional pinned destination, and the system migrations of every ref
 on the way.  Both files carry the same `_next_step`; `NextStep` is that code.
 */
module UpdateWalk {
  import opened Options
  import opened Sets
  import opened ReleaseTags
  import opened MigrationLog
  import opened MigrationRunner

  type Commit = nat

  /** The repository after the fetch; nothing in it moves during a walk. */
  datatype Repo = Repo(
    listing: seq<string>,                     // git tag -l "v*", in any order
    commitOf: string -> Commit,               // the commit a tag names
    exactTag: Commit -> Option<string>,       // git describe --tags --exact-match
    nearestTag: Commit -> Option<string>,     // git describe --tags --abbrev=0
    isAncestor: (Commit, Commit) -> bool,     // git merge-base --is-ancestor
    resolve: string -> Option<Commit>,        // origin/<ref>, else <ref>
    pin: Option<string>,                      // git config openhost.target-ref
    registry: Commit -> seq<int>              // the migrations that commit's code ships
  )

  /** The repository's own discipline: one release tag per commit, and a release tag
      resolves to, and is described as, itself. */
  ghost predicate Disciplined(r: Repo) {
    forall t :: t in r.listing && IsReleaseTag(t) ==>
      r.resolve(t) == Some(r.commitOf(t)) && r.exactTag(r.commitOf(t)) == Some(t)
  }

  datatype Step = Unresolvable | Arrived | Hop(ref: string)

  function OnlyRelease(tag: Option<string>): Option<string> {
    if tag.Some? && IsReleaseTag(tag.value) then tag else None
  }

  /** `_current_tag(...) or _latest_ancestor_tag(...)`. */
  function Base(r: Repo, head: Commit): Option<string> {
    var current := OnlyRelease(r.exactTag(head));
    if current.Some? then current else OnlyRelease(r.nearestTag(head))
  }

  function Target(r: Repo): Option<Commit> {
    if r.pin.Some? then r.resolve(r.pin.value) else None
  }

  predicate AtTarget(r: Repo, head: Commit) { Target(r) == Some(head) }

  predicate IsAbove(t: string, base: Option<string>) { base == None || Below(base.value, t) }

  /** The tags a walk from `base` may step through, lowest version first. */
  function Later(r: Repo, tags: seq<string>, base: Option<string>): (later: seq<string>)
    ensures forall t :: t in later <==>
              t in tags && IsAbove(t, base) && (Target(r).Some? ==> r.isAncestor(r.commitOf(t), Target(r).value))
  {
    if tags == [] then []
    else
      var t := tags[0];
      (if IsAbove(t, base) && (Target(r).Some? ==> r.isAncestor(r.commitOf(t), Target(r).value)) then [t] else [])
      + Later(r, tags[1..], base)
  }

  function NextStep(r: Repo, head: Commit): Step {
    if r.pin.Some? && Target(r) == None then Unresolvable
    else if AtTarget(r, head) then Arrived
    else
      var later := LaterTags(r, head);
      if later != [] then Hop(later[0])
      else if r.pin.Some? then Hop(r.pin.value)
      else Arrived
  }

  // ---- what one step does -------------------------------------------------------------

  /** A release tag the destination lets the walk use. */
  predicate Eligible(r: Repo, t: string) {
    t in r.listing && IsReleaseTag(t) && (Target(r).Some? ==> r.isAncestor(r.commitOf(t), Target(r).value))
  }

  /** The eligible tags still ahead of `head`. */
  function Ahead(r: Repo, head: Commit): set<string> {
    set t | t in r.listing && Eligible(r, t) && IsAbove(t, Base(r, head))
  }

  lemma {:induction false} LaterKeepsOrder(r: Repo, tags: seq<string>, base: Option<string>)
    requires Ascending(tags)
    ensures Ascending(Later(r, tags, base))
  {
    if tags != [] {
      LaterKeepsOrder(r, tags[1..], base);
      assert tags == [tags[0]] + tags[1..];
      LowestFirst(tags[0], tags[1..], Later(r, tags[1..], base));
      assert [] + Later(r, tags[1..], base) == Later(r, tags[1..], base);
    }
  }

  lemma LowestFirst(t: string, tags: seq<string>, rest: seq<string>)
    requires Ascending([t] + tags) && Ascending(rest) && forall u :: u in rest ==> u in tags
    ensures Ascending([t] + rest)
  {
    forall k | 0 <= k < |rest| ensures !Below(rest[k], t) {
      assert rest[k] in rest;
      var i :| 0 <= i < |tags| && tags[i] == rest[k];
      var all := [t] + tags;
      assert all[0] == t && all[i + 1] == rest[k] && !Below(all[i + 1], all[0]);
    }
  }

  function LaterTags(r: Repo, head: Commit): seq<string> {
    Later(r, SortTags(ReleasesOf(r.listing)), Base(r, head))
  }

  /** The list `_next_step` looks at is the set of eligible tags ahead, lowest first. */
  lemma LaterTagsAreAhead(r: Repo, head: Commit)
    ensures forall t :: t in LaterTags(r, head) <==> t in Ahead(r, head)
    ensures LaterTags(r, head) == [] <==> Ahead(r, head) == {}
    ensures LaterTags(r, head) != [] ==>
              LaterTags(r, head)[0] in Ahead(r, head)
              && forall t :: t in Ahead(r, head) ==> !Below(t, LaterTags(r, head)[0])
  {
    var later := LaterTags(r, head);
    SortTagsSorts(ReleasesOf(r.listing));
    LaterKeepsOrder(r, SortTags(ReleasesOf(r.listing)), Base(r, head));
    if later != [] {
      LessTotal(VersionKey(later[0]), VersionKey(later[0]));
      assert later[0] in later;
    } else {
      assert forall t :: t in Ahead(r, head) ==> t in later;
    }
  }

  /** The release `head` is on, or the last one before it if it is on none. */
  ghost predicate Describes(r: Repo, head: Commit, v: string) {
    IsReleaseTag(v)
    && (r.exactTag(head) == Some(v)
        || (r.nearestTag(head) == Some(v) && forall u :: r.exactTag(head) == Some(u) ==> !IsReleaseTag(u)))
  }

  /** The tags still to come are the releases above the one that describes HEAD, and if there is a
      destination, those it contains. */
  lemma AheadExactlyWhen(r: Repo, head: Commit, t: string)
    ensures t in Ahead(r, head) <==>
            && t in r.listing && IsReleaseTag(t)
            && (Target(r).Some? ==> r.isAncestor(r.commitOf(t), Target(r).value))
            && forall v :: Describes(r, head, v) ==> Below(v, t)
  {
    if Base(r, head).Some? {
      assert Describes(r, head, Base(r, head).value);
    }
  }

  /** With no pin, a host on one version hops as long as a newer one is released, to a version
      above its own and no newer than that. */
  lemma NewerReleaseMeansAHop(r: Repo, head: Commit, here: Key, there: Key)
    requires r.pin == None && here != [] && there != [] && LexicallyLess(here, there)
    requires r.exactTag(head) == Some(TagOf(here)) && TagOf(there) in r.listing
    ensures var step := NextStep(r, head);
            && step.Hop? && step.ref in r.listing && IsReleaseTag(step.ref)
            && Below(TagOf(here), step.ref) && !Below(TagOf(there), step.ref)
  {
    VersionOfTag(here);
    VersionOfTag(there);
    TagsCompareAsVersions(here, there);
    AheadExactlyWhen(r, head, TagOf(there));
    StepIsLowestAhead(r, head);
    AheadExactlyWhen(r, head, NextStep(r, head).ref);
  }

  /** The next step is a lowest eligible tag ahead, else the pin, else nothing. */
  lemma StepIsLowestAhead(r: Repo, head: Commit)
    ensures var step := NextStep(r, head);
            && (step == Unresolvable <==> r.pin.Some? && Target(r) == None)
            && (step == Arrived ==> AtTarget(r, head) || (r.pin == None && Ahead(r, head) == {}))
            && (step.Hop? ==> !AtTarget(r, head))
            && (step.Hop? && Ahead(r, head) != {} ==>
                  step.ref in Ahead(r, head) && forall t :: t in Ahead(r, head) ==> !Below(t, step.ref))
            && (step.Hop? && Ahead(r, head) == {} ==> r.pin == Some(step.ref) && Target(r).Some?)
  {
    LaterTagsAreAhead(r, head);
  }

  /** The commit a hop lands on. */
  function Landing(r: Repo, ref: string): Commit {
    if r.resolve(ref).Some? then r.resolve(ref).value else 0
  }

  /** Eligible tags ahead, plus one for a pin not reached yet; nothing once it is. */
  function Distance(r: Repo, head: Commit): nat {
    if AtTarget(r, head) then 0 else |Ahead(r, head)| + if r.pin.Some? then 1 else 0
  }

  lemma HopLands(r: Repo, head: Commit, ref: string)
    requires Disciplined(r) && NextStep(r, head) == Hop(ref)
    ensures r.resolve(ref) == Some(Landing(r, ref))
    ensures ref in Ahead(r, head) ==> Landing(r, ref) == r.commitOf(ref) && Base(r, Landing(r, ref)) == Some(ref)
    ensures ref !in Ahead(r, head) ==> AtTarget(r, Landing(r, ref))
  {
    StepIsLowestAhead(r, head);
  }

  /** A tag hop leaves ahead exactly the tags above the one it landed on. */
  lemma TagHopShrinksAhead(r: Repo, head: Commit, t: string)
    requires t in Ahead(r, head) && Base(r, r.commitOf(t)) == Some(t)
    ensures Ahead(r, r.commitOf(t)) == set u | u in Ahead(r, head) && Below(t, u)
    ensures Ahead(r, r.commitOf(t)) < Ahead(r, head)
    ensures |Ahead(r, r.commitOf(t))| < |Ahead(r, head)|
  {
    var after := Ahead(r, r.commitOf(t));
    forall u | u in after ensures u in Ahead(r, head) {
      if Base(r, head).Some? {
        LessTransitive(VersionKey(Base(r, head).value), VersionKey(t), VersionKey(u));
      }
    }
    LessTotal(VersionKey(t), VersionKey(t));
    assert t !in after;
    SmallerSet(after, Ahead(r, head));
  }

  /** Every hop, from every HEAD, brings the destination strictly nearer. */
  lemma HopsMakeProgress(r: Repo, head: Commit, ref: string)
    requires Disciplined(r) && NextStep(r, head) == Hop(ref)
    ensures Distance(r, Landing(r, ref)) < Distance(r, head)
  {
    StepIsLowestAhead(r, head);
    HopLands(r, head, ref);
    if ref in Ahead(r, head) {
      TagHopShrinksAhead(r, head, ref);
    }
  }

  // ---- the whole walk -------------------------------------------------------------------

  /** The refs checked out, one after the other, until `_next_step` returns None or raises.
      That this is a total function is the termination of the walk. */
  ghost function Walk(r: Repo, head: Commit): seq<string>
    requires Disciplined(r)
    decreases Distance(r, head)
  {
    var step := NextStep(r, head);
    if !step.Hop? then []
    else
      HopsMakeProgress(r, head, step.ref);
      [step.ref] + Walk(r, Landing(r, step.ref))
  }

  ghost function Destination(r: Repo, head: Commit): Commit
    requires Disciplined(r)
    decreases Distance(r, head)
  {
    var step := NextStep(r, head);
    if !step.Hop? then head
    else
      HopsMakeProgress(r, head, step.ref);
      Destination(r, Landing(r, step.ref))
  }

  /** No walk is longer than the tags ahead and the pin. */
  lemma {:induction false} WalkIsShort(r: Repo, head: Commit)
    requires Disciplined(r)
    ensures |Walk(r, head)| <= Distance(r, head)
    decreases Distance(r, head)
  {
    var step := NextStep(r, head);
    if step.Hop? {
      HopsMakeProgress(r, head, step.ref);
      WalkIsShort(r, Landing(r, step.ref));
    }
  }

  /** A resolvable pin is where the walk ends, whatever HEAD was (rollback pins included);
      an unresolvable one moves nothing. */
  lemma {:induction false} PinnedWalkEndsAtThePin(r: Repo, head: Commit)
    requires Disciplined(r) && r.pin.Some?
    ensures Target(r).Some? ==> Destination(r, head) == Target(r).value
    ensures Target(r) == None ==> Destination(r, head) == head && Walk(r, head) == []
    decreases Distance(r, head)
  {
    StepIsLowestAhead(r, head);
    var step := NextStep(r, head);
    if step.Hop? {
      HopsMakeProgress(r, head, step.ref);
      PinnedWalkEndsAtThePin(r, Landing(r, step.ref));
    }
  }

  /** No release is newer than `base`. */
  predicate IsNewest(r: Repo, base: Option<string>) {
    forall t :: t in r.listing && IsReleaseTag(t) ==> base.Some? && !Below(base.value, t)
  }

  lemma WalkGoesOn(r: Repo, head: Commit)
    requires Disciplined(r) && NextStep(r, head).Hop?
    ensures var ref := NextStep(r, head).ref;
            && Destination(r, head) == Destination(r, Landing(r, ref)) && Walk(r, head) != []
            && Walk(r, head)[|Walk(r, head)| - 1] ==
                 if Walk(r, Landing(r, ref)) == [] then ref
                 else Walk(r, Landing(r, ref))[|Walk(r, Landing(r, ref))| - 1]
  {
    HopsMakeProgress(r, head, NextStep(r, head).ref);
  }

  lemma NothingAheadIsNewest(r: Repo, head: Commit)
    requires r.pin == None && Ahead(r, head) == {}
    ensures IsNewest(r, Base(r, head))
  {
    forall t | t in r.listing && IsReleaseTag(t) ensures Base(r, head).Some? && !Below(Base(r, head).value, t) {
      assert Eligible(r, t);
      assert t !in Ahead(r, head);
    }
  }

  /** Unpinned, the walk ends with the newest release as its base, on that release's own
      commit when it moved at all. */
  lemma {:induction false} UnpinnedWalkEndsAtTheNewestRelease(r: Repo, head: Commit)
    requires Disciplined(r) && r.pin == None
    ensures IsNewest(r, Base(r, Destination(r, head)))
    ensures Walk(r, head) != [] ==> Base(r, Destination(r, head)) == Some(Walk(r, head)[|Walk(r, head)| - 1])
    ensures Walk(r, head) != [] ==> Destination(r, head) == r.commitOf(Walk(r, head)[|Walk(r, head)| - 1])
    decreases Distance(r, head)
  {
    StepIsLowestAhead(r, head);
    var step := NextStep(r, head);
    if step.Hop? {
      HopsMakeProgress(r, head, step.ref);
      HopLands(r, head, step.ref);
      UnpinnedWalkEndsAtTheNewestRelease(r, Landing(r, step.ref));
      WalkGoesOn(r, head);
    } else {
      NothingAheadIsNewest(r, head);
    }
  }

  /** The part of the walk that steps through tags. */
  ghost function TagHops(r: Repo, head: Commit): seq<string>
    requires Disciplined(r)
    decreases Distance(r, head)
  {
    var step := NextStep(r, head);
    if !step.Hop? || Ahead(r, head) == {} then []
    else
      HopsMakeProgress(r, head, step.ref);
      [step.ref] + TagHops(r, Landing(r, step.ref))
  }

  /** The hop, if any, that goes to the pin because no tag was left. */
  ghost function PinHop(r: Repo, head: Commit): seq<string>
    requires Disciplined(r)
    decreases Distance(r, head)
  {
    var step := NextStep(r, head);
    if !step.Hop? then []
    else if Ahead(r, head) == {} then [step.ref]
    else
      HopsMakeProgress(r, head, step.ref);
      PinHop(r, Landing(r, step.ref))
  }

  lemma NothingFollowsThePin(r: Repo, head: Commit)
    requires Disciplined(r) && NextStep(r, head).Hop? && Ahead(r, head) == {}
    ensures Walk(r, head) == [NextStep(r, head).ref] && r.pin == Some(NextStep(r, head).ref)
  {
    StepIsLowestAhead(r, head);
    HopLands(r, head, NextStep(r, head).ref);
    assert Walk(r, Landing(r, NextStep(r, head).ref)) == [];
  }

  /** The pinned ref is taken at most once, as the last hop; everything before it is tags. */
  lemma {:induction false} PinIsTheLastHop(r: Repo, head: Commit)
    requires Disciplined(r)
    ensures Walk(r, head) == TagHops(r, head) + PinHop(r, head)
    ensures PinHop(r, head) == [] || (r.pin.Some? && PinHop(r, head) == [r.pin.value])
    decreases Distance(r, head)
  {
    var step := NextStep(r, head);
    if step.Hop? && Ahead(r, head) == {} {
      NothingFollowsThePin(r, head);
      assert [] + [step.ref] == [step.ref];
    } else if step.Hop? {
      HopsMakeProgress(r, head, step.ref);
      PinIsTheLastHop(r, Landing(r, step.ref));
      PrependToBoth(step.ref, TagHops(r, Landing(r, step.ref)), PinHop(r, Landing(r, step.ref)));
    }
  }

  lemma PrependToBoth(ref: string, a: seq<string>, b: seq<string>)
    ensures [ref] + (a + b) == ([ref] + a) + b
  {
  }

  predicate StrictlyAscending(tags: seq<string>) {
    forall i, j :: 0 <= i < j < |tags| ==> Below(tags[i], tags[j])
  }

  /** Tag hops strictly ascend in version order, through eligible tags ahead of the start. */
  lemma {:induction false} TagHopsAscend(r: Repo, head: Commit)
    requires Disciplined(r)
    ensures forall t :: t in TagHops(r, head) ==> t in Ahead(r, head)
    ensures StrictlyAscending(TagHops(r, head))
    decreases Distance(r, head)
  {
    StepIsLowestAhead(r, head);
    var step := NextStep(r, head);
    if step.Hop? && Ahead(r, head) != {} {
      HopsMakeProgress(r, head, step.ref);
      HopLands(r, head, step.ref);
      TagHopShrinksAhead(r, head, step.ref);
      var rest := TagHops(r, Landing(r, step.ref));
      TagHopsAscend(r, Landing(r, step.ref));
      PrependAscending(step.ref, rest);
    }
  }

  lemma PrependAscending(ref: string, rest: seq<string>)
    requires StrictlyAscending(rest) && forall t :: t in rest ==> Below(ref, t)
    ensures StrictlyAscending([ref] + rest)
  {
    var all := [ref] + rest;
    forall i, j | 0 <= i < j < |all| ensures Below(all[i], all[j]) {
      assert all[j] == rest[j - 1] && rest[j - 1] in rest;
    }
  }

  /** `t`'s version was stepped on, or the walk stopped short of it on the pinned commit. */
  ghost predicate Covered(r: Repo, head: Commit, t: string)
    requires Disciplined(r)
  {
    var hops := TagHops(r, head);
    || (exists h :: h in hops && VersionKey(h) == VersionKey(t))
    || (hops != [] && AtTarget(r, r.commitOf(hops[|hops| - 1])) && Below(hops[|hops| - 1], t))
  }

  /** No eligible tag is jumped over. */
  lemma {:induction false} NoTagIsSkipped(r: Repo, head: Commit, t: string)
    requires Disciplined(r) && !AtTarget(r, head) && NextStep(r, head) != Unresolvable
    requires t in Ahead(r, head)
    ensures Covered(r, head, t)
    decreases Distance(r, head)
  {
    StepIsLowestAhead(r, head);
    var ref := NextStep(r, head).ref;
    HopsMakeProgress(r, head, ref);
    HopLands(r, head, ref);
    TagHopShrinksAhead(r, head, ref);
    var next := Landing(r, ref);
    var hops := TagHops(r, head);
    assert hops == [ref] + TagHops(r, next);
    assert ref in hops;
    LessTotal(VersionKey(ref), VersionKey(t));
    if Below(ref, t) {
      assert t in Ahead(r, next);
      if AtTarget(r, next) {
        assert hops == [ref];
      } else {
        StepIsLowestAhead(r, next);
        NoTagIsSkipped(r, next, t);
        var more := TagHops(r, next);
        if h :| h in more && VersionKey(h) == VersionKey(t) {
          assert h in hops;
        }
      }
    }
  }

  // ---- the walk with every ref's own migrations -------------------------------------------

  /** What the outside does: how each migration of each ref fares, and whether `pixi install` works there. */
  datatype Outside = Outside(fate: Commit -> int -> Fate, installs: Commit -> bool)

  /** `visited` are the commits whose apply code ran, in order. */
  datatype Report = Report(head: Commit, log: seq<Entry>, visited: seq<Commit>, ok: bool)

  /** apply_after_checkout: migrate, install, then hop or finish. */
  ghost function ApplyFrom(r: Repo, head: Commit, log: seq<Entry>, out: Outside): Report
    requires Disciplined(r)
    decreases Distance(r, head)
  {
    var run := ApplySystemMigrations(log, r.registry(head), out.fate(head));
    var after := log + run.logged;
    var step := NextStep(r, head);
    if run.end != Finished || !out.installs(head) || step.Unresolvable? then Report(head, after, [head], false)
    else if step.Arrived? then Report(head, after, [head], true)
    else
      HopsMakeProgress(r, head, step.ref);
      var rest := ApplyFrom(r, Landing(r, step.ref), after, out);
      rest.(visited := [head] + rest.visited)
  }

  /** update.apply_update: the first hop is taken before any migration runs. */
  ghost function ApplyUpdate(r: Repo, head: Commit, log: seq<Entry>, out: Outside): Report
    requires Disciplined(r)
  {
    var step := NextStep(r, head);
    if (r.pin == None && ReleasesOf(r.listing) == []) || step.Unresolvable? then Report(head, log, [], false)
    else if step.Arrived? then ApplyFrom(r, head, log, out)
    else ApplyFrom(r, Landing(r, step.ref), log, out)
  }

  class Agent {
    var head: Commit
    const log: LogFile

    constructor (head: Commit, log: LogFile)
      ensures this.head == head && this.log == log
    {
      this.head, this.log := head, log;
    }

    /** Hands over to the checked-out ref by calling itself, as the source does with execv. */
    method ApplyAfterCheckout(json: Json, r: Repo, out: Outside) returns (ok: bool)
      requires Lawful(json) && Disciplined(r)
      requires ReadFile(json, log.content).Entries?
      modifies this, log
      ensures var report := ApplyFrom(r, old(head), ReadFile(json, old(log.content)).entries, out);
              && ok == report.ok && head == report.head
              && ReadFile(json, log.content) == Entries(report.log)
      decreases Distance(r, head)
    {
      var applied, end := Apply(log, json, r.registry(head), out.fate(head));
      if end != Finished { return false; }
      if !out.installs(head) { return false; }
      match NextStep(r, head) {
        case Unresolvable => return false;
        case Arrived => return true;
        case Hop(ref) =>
          HopsMakeProgress(r, head, ref);
          head := Landing(r, ref);
          ok := ApplyAfterCheckout(json, r, out);
      }
    }

    method Update(json: Json, r: Repo, out: Outside) returns (ok: bool)
      requires Lawful(json) && Disciplined(r)
      requires ReadFile(json, log.content).Entries?
      modifies this, log
      ensures var report := ApplyUpdate(r, old(head), ReadFile(json, old(log.content)).entries, out);
              && ok == report.ok && head == report.head
              && ReadFile(json, log.content) == Entries(report.log)
    {
      if r.pin == None && ReleasesOf(r.listing) == [] { return false; }
      match NextStep(r, head) {
        case Unresolvable => return false;
        case Arrived =>
        case Hop(ref) => head := Landing(r, ref);
      }
      ok := ApplyAfterCheckout(json, r, out);
    }
  }

  function Landings(r: Repo, refs: seq<string>): seq<Commit> {
    if refs == [] then [] else [Landing(r, refs[0])] + Landings(r, refs[1..])
  }

  /** The commits whose code must run: every landing of the walk, or HEAD itself when there is none. */
  ghost function Route(r: Repo, head: Commit): seq<Commit>
    requires Disciplined(r)
  {
    if Walk(r, head) == [] then [head] else Landings(r, Walk(r, head))
  }

  lemma LandingsOfWalk(r: Repo, head: Commit)
    requires Disciplined(r) && NextStep(r, head).Hop?
    ensures var next := Landing(r, NextStep(r, head).ref);
            Landings(r, Walk(r, head)) == [next] + Landings(r, Walk(r, next)) && Walk(r, head) != []
  {
    HopsMakeProgress(r, head, NextStep(r, head).ref);
    assert Walk(r, head)[1..] == Walk(r, Landing(r, NextStep(r, head).ref));
  }

  lemma {:induction false} ApplyFromFacts(r: Repo, head: Commit, log: seq<Entry>, out: Outside)
    requires Disciplined(r) && Bootstrapped(log)
    ensures var report := ApplyFrom(r, head, log, out);
            var full := [head] + Landings(r, Walk(r, head));
            && log <= report.log && Bootstrapped(report.log)
            && report.visited <= full
            && (report.ok ==>
                  && report.visited == full
                  && report.head == Destination(r, head)
                  && NextStep(r, report.head) == Arrived
                  && CurrentHostVersion(report.log) == LatestRegistryVersion(r.registry(report.head)))
    decreases Distance(r, head)
  {
    var run := ApplySystemMigrations(log, r.registry(head), out.fate(head));
    OneRun(log, r.registry(head), out.fate(head));
    var step := NextStep(r, head);
    if run.end == Finished && out.installs(head) && step.Hop? {
      HopsMakeProgress(r, head, step.ref);
      var next := Landing(r, step.ref);
      ApplyFromFacts(r, next, log + run.logged, out);
      LandingsOfWalk(r, head);
    }
  }

  /** However the two files share the walk, an update that ends well ran exactly the code of
      the refs of the uninterrupted walk, in order; it stands at the destination; and the
      host is at that ref's newest system version.  Failed or not, the log stays contiguous. */
  lemma UpdateEndsAtTheDestinationsVersion(r: Repo, head: Commit, log: seq<Entry>, out: Outside)
    requires Disciplined(r) && Bootstrapped(log)
    ensures var report := ApplyUpdate(r, head, log, out);
            && log <= report.log && Bootstrapped(report.log)
            && report.visited <= Route(r, head)
            && (report.ok ==>
                  && report.visited == Route(r, head)
                  && report.head == Destination(r, head)
                  && CurrentHostVersion(report.log) == LatestRegistryVersion(r.registry(Destination(r, head))))
  {
    var step := NextStep(r, head);
    if step.Arrived? {
      ApplyFromFacts(r, head, log, out);
    } else if step.Hop? {
      HopsMakeProgress(r, head, step.ref);
      var next := Landing(r, step.ref);
      ApplyFromFacts(r, next, log, out);
      LandingsOfWalk(r, head);
    }
  }

  /** At every ref visited the migrations of that ref ran to the end and its install worked, one after
      the other from `log` on; at the last one `ok` says whether both did and nothing was left. */
  predicate Traced(r: Repo, visited: seq<Commit>, log: seq<Entry>, out: Outside, end: seq<Entry>, ok: bool) {
    visited != []
    && var c := visited[0];
       var run := ApplySystemMigrations(log, r.registry(c), out.fate(c));
       var works := run.end == Finished && out.installs(c);
       if |visited| == 1 then end == log + run.logged && (ok <==> works && NextStep(r, c) == Arrived)
       else works && Traced(r, visited[1..], log + run.logged, out, end, ok)
  }

  /** The report of an update that has begun at `log`. */
  predicate Tells(r: Repo, report: Report, log: seq<Entry>, out: Outside) {
    Traced(r, report.visited, log, out, report.log, report.ok)
    && report.head == report.visited[|report.visited| - 1]
  }

  lemma {:induction false} ApplyFromIsTraced(r: Repo, head: Commit, log: seq<Entry>, out: Outside)
    requires Disciplined(r)
    ensures Tells(r, ApplyFrom(r, head, log, out), log, out)
    decreases Distance(r, head)
  {
    var run := ApplySystemMigrations(log, r.registry(head), out.fate(head));
    var step := NextStep(r, head);
    if run.end == Finished && out.installs(head) && step.Hop? {
      HopsMakeProgress(r, head, step.ref);
      ApplyFromIsTraced(r, Landing(r, step.ref), log + run.logged, out);
      TracedFrom(r, head, ApplyFrom(r, Landing(r, step.ref), log + run.logged, out), log, out);
    }
  }

  lemma TracedFrom(r: Repo, c: Commit, rest: Report, log: seq<Entry>, out: Outside)
    requires var run := ApplySystemMigrations(log, r.registry(c), out.fate(c));
             run.end == Finished && out.installs(c) && Tells(r, rest, log + run.logged, out)
    ensures Tells(r, rest.(visited := [c] + rest.visited), log, out)
  {
    assert ([c] + rest.visited)[1..] == rest.visited;
  }

  lemma NoReleaseExactlyWhen(r: Repo)
    ensures ReleasesOf(r.listing) == [] <==> forall t :: t in r.listing ==> !IsReleaseTag(t)
  {
    var releases := ReleasesOf(r.listing);
    assert releases != [] ==> releases[0] in releases;
  }

  /** What an update has done, whether it ends well or not: the migrations and the install of every
      ref visited, in order; it fails exactly at the last of them, or before the first. */
  lemma UpdateRunsEveryRefItVisits(r: Repo, head: Commit, log: seq<Entry>, out: Outside)
    requires Disciplined(r)
    ensures var report := ApplyUpdate(r, head, log, out);
            if NextStep(r, head) == Unresolvable || (r.pin == None && forall t :: t in r.listing ==> !IsReleaseTag(t))
            then report == Report(head, log, [], false)
            else Tells(r, report, log, out)
  {
    NoReleaseExactlyWhen(r);
    var step := NextStep(r, head);
    if step.Hop? {
      ApplyFromIsTraced(r, Landing(r, step.ref), log, out);
    } else if step.Arrived? {
      ApplyFromIsTraced(r, head, log, out);
    }
  }

  /** No migration fails and every install works. */
  ghost predicate Smooth(out: Outside) {
    forall c :: out.installs(c) && forall v :: out.fate(c)(v).Completes?
  }

  /** Every ref on the route knows at least the version the host has reached by then. */
  predicate Climbs(r: Repo, version: int, route: seq<Commit>)
    decreases |route|
  {
    route != [] ==>
      var reg := r.registry(route[0]);
      ValidRegistry(reg) && version <= LatestRegistryVersion(reg) && Climbs(r, LatestRegistryVersion(reg), route[1..])
  }

  lemma {:induction false} SmoothRunFinishes(current: int, registry: seq<int>, fate: int -> Fate)
    requires forall v :: fate(v).Completes?
    ensures RunFrom(current, registry, fate).end == Finished
    decreases |registry|
  {
    if registry != [] {
      SmoothRunFinishes(if registry[0] <= current then current else registry[0], registry[1..], fate);
    }
  }

  lemma SmoothRun(log: seq<Entry>, registry: seq<int>, fate: int -> Fate)
    requires Bootstrapped(log) && forall v :: fate(v).Completes?
    ensures var run := ApplySystemMigrations(log, registry, fate);
            && Bootstrapped(log + run.logged)
            && (run.end == Finished <==>
                  ValidRegistry(registry) && CurrentHostVersion(log) <= LatestRegistryVersion(registry))
            && (run.end == Finished ==> CurrentHostVersion(log + run.logged) == LatestRegistryVersion(registry))
  {
    OneRun(log, registry, fate);
    CurrentIsLastSuccess(log);
    SmoothRunFinishes(CurrentHostVersion(log), registry, fate);
  }

  lemma {:induction false} SmoothApplyFrom(r: Repo, head: Commit, log: seq<Entry>, out: Outside)
    requires Disciplined(r) && Bootstrapped(log) && Smooth(out)
    requires NextStep(r, head) != Unresolvable
    ensures ApplyFrom(r, head, log, out).ok <==>
            Climbs(r, CurrentHostVersion(log), [head] + Landings(r, Walk(r, head)))
    decreases Distance(r, head), 1
  {
    SmoothRun(log, r.registry(head), out.fate(head));
    assert ([head] + Landings(r, Walk(r, head)))[1..] == Landings(r, Walk(r, head));
    if ApplySystemMigrations(log, r.registry(head), out.fate(head)).end == Finished && NextStep(r, head).Hop? {
      SmoothHop(r, head, log + ApplySystemMigrations(log, r.registry(head), out.fate(head)).logged, out);
    }
  }

  /** The same, one hop on. */
  lemma SmoothHop(r: Repo, head: Commit, log: seq<Entry>, out: Outside)
    requires Disciplined(r) && Bootstrapped(log) && Smooth(out)
    requires NextStep(r, head).Hop?
    ensures ApplyFrom(r, Landing(r, NextStep(r, head).ref), log, out).ok <==>
            Climbs(r, CurrentHostVersion(log), Landings(r, Walk(r, head)))
    decreases Distance(r, head), 0
  {
    var ref := NextStep(r, head).ref;
    HopsMakeProgress(r, head, ref);
    StepIsLowestAhead(r, head);
    StepIsLowestAhead(r, Landing(r, ref));
    SmoothApplyFrom(r, Landing(r, ref), log, out);
    LandingsOfWalk(r, head);
  }

  /** When nothing outside fails, an update ends well exactly when the system versions of the
      refs on its route never fall below the host's.  (A rollback pin across a migration is
      the case that does not.) */
  lemma SmoothUpdateSucceedsExactlyWhenVersionsClimb(r: Repo, head: Commit, log: seq<Entry>, out: Outside)
    requires Disciplined(r) && Bootstrapped(log) && Smooth(out)
    requires r.pin.Some? || ReleasesOf(r.listing) != []
    ensures ApplyUpdate(r, head, log, out).ok <==>
            NextStep(r, head) != Unresolvable && Climbs(r, CurrentHostVersion(log), Route(r, head))
  {
    var step := NextStep(r, head);
    if step.Arrived? {
      SmoothApplyFrom(r, head, log, out);
      assert [head] + Landings(r, []) == [head];
    } else if step.Hop? {
      SmoothHop(r, head, log, out);
      LandingsOfWalk(r, head);
    }
  }
}
