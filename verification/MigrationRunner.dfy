/**
 The numbered system migrations (migrations/runner.py, migrations/registry.py):
 one run over a registry, and any number of runs with failures and crashes.
 */
module MigrationRunner {
  import opened Options
  import opened MigrationLog

  /** What becomes of one migration: its `up` completes; raises; the process dies inside it;
      or the process dies while the entry is being written, which `keep`s it or not. */
  datatype Fate =
    | Completes(at: string)
    | RaisesError(at: string, error: string)
    | Dies
    | DiesLogging(at: string, outcome: Option<string>, keep: bool)

  datatype End = Finished | FailedAt(version: int) | DiedAt(version: int) | Refused

  /** One run: the entries it added to the log, what it applied, and how it ended. */
  datatype Run = Run(logged: seq<Entry>, applied: seq<int>, end: End)

  function RecordOf(version: int, at: string, error: Option<string>): Entry {
    Entry(version, at, error == None, error)
  }

  /** What one attempt leaves in the log. */
  function Records(version: int, fate: Fate): seq<Entry> {
    match fate
    case Completes(at) => [RecordOf(version, at, None)]
    case RaisesError(at, error) => [RecordOf(version, at, Some(error))]
    case Dies => []
    case DiesLogging(at, outcome, keep) => if keep then [RecordOf(version, at, outcome)] else []
  }

  /** A success, a failure with its error, or for a process that has died nothing or the entry that was
      being written. */
  predicate Recorded(entries: seq<Entry>, version: int, fate: Fate) {
    match |entries|
    case 0 => fate.Dies? || (fate.DiesLogging? && !fate.keep)
    case 1 =>
      var e := entries[0];
      && e.version == version && (e.success <==> e.error == None)
      && (|| fate == DiesLogging(e.timestamp, e.error, true)
          || if e.success then fate == Completes(e.timestamp)
             else fate == RaisesError(e.timestamp, e.error.value))
    case _ => false
  }

  /** `validate_registry`: versions start at 2 and are contiguous. */
  predicate ValidRegistry(registry: seq<int>) {
    forall i :: 0 <= i < |registry| ==> registry[i] == i + 2
  }

  function LatestRegistryVersion(registry: seq<int>): int {
    if registry == [] then 1 else registry[|registry| - 1]
  }

  function RunFrom(current: int, registry: seq<int>, fate: int -> Fate): Run
    decreases |registry|
  {
    if registry == [] then Run([], [], Finished)
    else
      var v := registry[0];
      if v <= current then RunFrom(current, registry[1..], fate)
      else if fate(v).Completes? then Resume(Records(v, fate(v)), [v], RunFrom(v, registry[1..], fate))
      else Run(Records(v, fate(v)), [], if fate(v).RaisesError? then FailedAt(v) else DiedAt(v))
  }

  /** What a run amounts to once `added` and `applied` are behind it and `rest` is still to come. */
  function Resume(added: seq<Entry>, applied: seq<int>, rest: Run): Run {
    Run(added + rest.logged, applied + rest.applied, rest.end)
  }

  lemma ResumeTwice(a: seq<Entry>, b: seq<Entry>, s: seq<int>, t: seq<int>, rest: Run)
    ensures Resume(a, s, Resume(b, t, rest)) == Resume(a + b, s + t, rest)
  {
    assert a + (b + rest.logged) == a + b + rest.logged;
    assert s + (t + rest.applied) == s + t + rest.applied;
  }

  predicate Accepts(entries: seq<Entry>, registry: seq<int>) {
    var current := CurrentHostVersion(entries);
    ValidRegistry(registry) && current != 0 && current <= LatestRegistryVersion(registry)
  }

  function ApplySystemMigrations(entries: seq<Entry>, registry: seq<int>, fate: int -> Fate): Run {
    if !Accepts(entries, registry) then Run([], [], Refused)
    else RunFrom(CurrentHostVersion(entries), registry, fate)
  }

  /** One migration, over the log file. */
  method RunMigration(log: LogFile, json: Json, version: int, fate: Fate, ghost before: seq<Entry>)
    requires Lawful(json)
    requires ReadFile(json, log.content) == Entries(before)
    modifies log
    ensures ReadFile(json, log.content) == Entries(before + Records(version, fate))
    ensures Recorded(Records(version, fate), version, fate)
  {
    match fate {
      case Completes(at) => log.AppendEntry(json, RecordOf(version, at, None));
      case RaisesError(at, error) => log.AppendEntry(json, RecordOf(version, at, Some(error)));
      case Dies => assert before + [] == before;
      case DiesLogging(at, outcome, keep) =>
        var e := RecordOf(version, at, outcome);
        assert LawfulFor(json, e);
        var written: nat := if keep then |Appended(json, Text(log.content), e)| else 0;
        TornWriteIsAllOrNothing(json, log.content, e, written);
        log.content := Torn(json, log.content, e, written);
        assert before + [] == before;
    }
  }

  /** The runner itself, over the log file. */
  method Apply(log: LogFile, json: Json, registry: seq<int>, fate: int -> Fate) returns (applied: seq<int>, end: End)
    requires Lawful(json)
    modifies log
    ensures ReadFile(json, old(log.content)).ReadRaises? ==> end == Refused && log.content == old(log.content)
    ensures ReadFile(json, old(log.content)).Entries? ==>
              var before := ReadFile(json, old(log.content)).entries;
              var run := ApplySystemMigrations(before, registry, fate);
              && end == run.end
              && (end == Finished ==> applied == run.applied)
              && ReadFile(json, log.content) == Entries(before + run.logged) && Told(run, fate)
              && (end == Refused ==> log.content == old(log.content))
  {
    applied, end := [], Refused;
    if ReadFile(json, log.content).Entries? {
      RunIsLogged(ReadFile(json, log.content).entries, registry, fate);
    }
    var logged := ReadLog(json, log.content);
    if logged.ReadRaises? { return; }
    if !Accepts(logged.entries, registry) {
      assert logged.entries + [] == logged.entries;
      return;
    }
    applied, end := ApplyPending(log, json, CurrentHostVersion(logged.entries), registry, fate, logged.entries);
  }

  method ApplyPending(log: LogFile, json: Json, start: int, registry: seq<int>, fate: int -> Fate,
                      ghost before: seq<Entry>)
    returns (applied: seq<int>, end: End)
    requires Lawful(json)
    requires ReadFile(json, log.content) == Entries(before)
    modifies log
    ensures var run := RunFrom(start, registry, fate);
            && end == run.end && end != Refused
            && (end == Finished ==> applied == run.applied)
            && ReadFile(json, log.content) == Entries(before + run.logged)
  {
    var current := start;
    applied := [];
    ghost var added: seq<Entry> := [];
    assert before + [] == before;
    for i := 0 to |registry|
      invariant RunFrom(start, registry, fate) == Resume(added, applied, RunFrom(current, registry[i..], fate))
      invariant ReadFile(json, log.content) == Entries(before + added)
    {
      var version := registry[i];
      assert registry[i..][1..] == registry[i + 1..];
      if version <= current { continue; }
      RunMigration(log, json, version, fate(version), before + added);
      assert before + added + Records(version, fate(version)) == before + (added + Records(version, fate(version)));
      if fate(version).RaisesError? { return applied, FailedAt(version); }
      if !fate(version).Completes? { return applied, DiedAt(version); }
      ResumeTwice(added, Records(version, fate(version)), applied, [version],
                  RunFrom(version, registry[i + 1..], fate));
      added := added + Records(version, fate(version));
      current, applied := version, applied + [version];
    }
    end := Finished;
  }

  // ---- what the log tells of a run --------------------------------------------------------

  /** One success of its own for every migration applied, in order; then, if one has failed, its
      failure with the error it raised; if the process has died, at most the entry being written. */
  predicate Told(run: Run, fate: int -> Fate) {
    var n := |run.applied|;
    && n <= |run.logged| <= n + 1
    && (forall i :: 0 <= i < n ==> IsSuccessOf(run.logged[i], run.applied[i], fate))
    && match run.end
       case Finished => |run.logged| == n
       case Refused => run.logged == [] && n == 0
       case FailedAt(v) =>
         |run.logged| > n && run.logged[n].version == v && !run.logged[n].success
         && run.logged[n].error.Some? && fate(v) == RaisesError(run.logged[n].timestamp, run.logged[n].error.value)
       case DiedAt(v) =>
         if |run.logged| == n then fate(v) == Dies || (fate(v).DiesLogging? && !fate(v).keep)
         else run.logged[n].version == v && (run.logged[n].success <==> run.logged[n].error == None)
              && fate(v) == DiesLogging(run.logged[n].timestamp, run.logged[n].error, true)
  }

  predicate IsSuccessOf(e: Entry, version: int, fate: int -> Fate) {
    e.version == version && e.success && e.error == None && fate(version) == Completes(e.timestamp)
  }

  lemma {:induction false} RunFromIsLogged(current: int, registry: seq<int>, fate: int -> Fate)
    ensures Told(RunFrom(current, registry, fate), fate) && RunFrom(current, registry, fate).end != Refused
    decreases |registry|
  {
    if registry != [] {
      var v, rest := registry[0], registry[1..];
      if v <= current {
        RunFromIsLogged(current, rest, fate);
      } else if fate(v).Completes? {
        RunFromIsLogged(v, rest, fate);
        ToldOfOneMore(v, RunFrom(v, rest, fate), fate);
      }
    }
  }

  lemma ToldOfOneMore(v: int, rest: Run, fate: int -> Fate)
    requires Told(rest, fate) && rest.end != Refused && fate(v).Completes?
    ensures Told(Resume(Records(v, fate(v)), [v], rest), fate)
  {
    var run := Resume(Records(v, fate(v)), [v], rest);
    assert |Records(v, fate(v))| == 1;
    forall i | 0 <= i < |run.applied| ensures IsSuccessOf(run.logged[i], run.applied[i], fate) {
      if i > 0 {
        assert run.logged[i] == rest.logged[i - 1] && run.applied[i] == rest.applied[i - 1];
      }
    }
    assert |run.logged| > |run.applied| ==> run.logged[|run.applied|] == rest.logged[|rest.applied|];
  }

  /** Every run is told by what it has logged. */
  lemma RunIsLogged(entries: seq<Entry>, registry: seq<int>, fate: int -> Fate)
    ensures Told(ApplySystemMigrations(entries, registry, fate), fate)
  {
    RunFromIsLogged(CurrentHostVersion(entries), registry, fate);
  }

  // ---- the history of successes ---------------------------------------------------

  function Successes(entries: seq<Entry>): seq<int> {
    if entries == [] then []
    else
      var last := entries[|entries| - 1];
      Successes(entries[..|entries| - 1]) + if last.success then [last.version] else []
  }

  predicate Contiguous(versions: seq<int>) {
    forall i :: 0 <= i < |versions| - 1 ==> versions[i + 1] == versions[i] + 1
  }

  /** A host that ansible bootstrapped: some success logged, each one past its predecessor. */
  predicate Bootstrapped(entries: seq<Entry>) {
    var s := Successes(entries);
    s != [] && Contiguous(s) && s[|s| - 1] >= 1
  }

  lemma {:induction false} CurrentIsLastSuccess(entries: seq<Entry>)
    ensures CurrentHostVersion(entries) ==
            if Successes(entries) == [] then 0 else Successes(entries)[|Successes(entries)| - 1]
  {
    if entries != [] {
      CurrentIsLastSuccess(entries[..|entries| - 1]);
    }
  }

  lemma {:induction false} SuccessesConcat(a: seq<Entry>, b: seq<Entry>)
    ensures Successes(a + b) == Successes(a) + Successes(b)
  {
    if b == [] {
      assert a + b == a;
    } else {
      var init := b[..|b| - 1];
      assert (a + b)[..|a + b| - 1] == a + init;
      SuccessesConcat(a, init);
    }
  }

  predicate Succeeds(fate: Fate) {
    fate.Completes? || (fate.DiesLogging? && fate.keep && fate.outcome == None)
  }

  lemma SuccessesOfRecords(v: int, fate: Fate)
    ensures Successes(Records(v, fate)) == if Succeeds(fate) then [v] else []
  {
    var records := Records(v, fate);
    assert Successes([]) == [];
    if records != [] {
      assert records[..|records| - 1] == [];
    }
  }

  /** `registry[k..]` of a valid registry, seen from a host at version `current`. */
  predicate Pending(registry: seq<int>, current: int, latest: int) {
    && (forall i :: 0 <= i < |registry| ==> registry[i] == latest - |registry| + 1 + i)
    && latest - |registry| <= current <= latest
  }

  /** The facts about one run that everything else follows from. */
  lemma {:induction false} RunFromFacts(current: int, registry: seq<int>, latest: int, fate: int -> Fate)
    requires Pending(registry, current, latest)
    ensures var run := RunFrom(current, registry, fate);
            var s := Successes(run.logged);
            && (forall i :: 0 <= i < |s| ==> s[i] == current + 1 + i)
            && current + |s| <= latest
            && (run.end == Finished ==> current + |s| == latest && run.applied == s)
            && (run.end.FailedAt? ==> run.end.version == current + |s| + 1 <= latest)
            && (run.end.DiedAt? ==> run.end.version in {current + |s| + 1, current + |s|} && run.end.version <= latest)
            && run.end != Refused
    decreases |registry|
  {
    assert Successes([]) == [];
    if registry != [] {
      var v, rest := registry[0], registry[1..];
      if v <= current {
        RunFromFacts(current, rest, latest, fate);
      } else {
        SuccessesOfRecords(v, fate(v));
        if fate(v).Completes? {
          RunFromFacts(v, rest, latest, fate);
          SuccessesConcat(Records(v, fate(v)), RunFrom(v, rest, fate).logged);
        }
      }
    }
  }

  lemma AcceptedIsPending(entries: seq<Entry>, registry: seq<int>)
    requires Bootstrapped(entries) && Accepts(entries, registry)
    ensures Pending(registry, CurrentHostVersion(entries), LatestRegistryVersion(registry))
  {
    CurrentIsLastSuccess(entries);
  }

  /** One run keeps the history contiguous; a run that finishes leaves the host at the newest
      version the registry knows, having applied exactly the missing ones, in order. */
  lemma OneRun(entries: seq<Entry>, registry: seq<int>, fate: int -> Fate)
    requires Bootstrapped(entries)
    ensures var run := ApplySystemMigrations(entries, registry, fate);
            var after := entries + run.logged;
            && Bootstrapped(after)
            && CurrentHostVersion(after) == CurrentHostVersion(entries) + |Successes(run.logged)|
            && (run.end == Finished ==>
                  && CurrentHostVersion(after) == LatestRegistryVersion(registry)
                  && run.applied == seq(LatestRegistryVersion(registry) - CurrentHostVersion(entries),
                                        i requires i >= 0 => CurrentHostVersion(entries) + 1 + i))
            && (run.end == Refused <==> !Accepts(entries, registry))
            && (run.end.FailedAt? ==> CurrentHostVersion(after) == run.end.version - 1)
            && (run.end.DiedAt? ==> CurrentHostVersion(after) in {run.end.version - 1, run.end.version})
  {
    var run := ApplySystemMigrations(entries, registry, fate);
    var current := CurrentHostVersion(entries);
    CurrentIsLastSuccess(entries);
    SuccessesConcat(entries, run.logged);
    CurrentIsLastSuccess(entries + run.logged);
    if Accepts(entries, registry) {
      AcceptedIsPending(entries, registry);
      RunFromFacts(current, registry, LatestRegistryVersion(registry), fate);
    } else {
      assert Successes([]) == [];
    }
  }

  /** A run is refused exactly if the registry is not 2, 3, 4 and so on, or no success is logged, or
      the last one is of a version the registry does not reach. */
  lemma RefusedExactlyWhen(entries: seq<Entry>, registry: seq<int>, fate: int -> Fate)
    requires Bootstrapped(entries) || Successes(entries) == []
    ensures ApplySystemMigrations(entries, registry, fate).end == Refused <==>
            || (exists i :: 0 <= i < |registry| && registry[i] != i + 2)
            || Successes(entries) == []
            || Successes(entries)[|Successes(entries)| - 1] > |registry| + 1
  {
    CurrentIsLastSuccess(entries);
    RunFromIsLogged(CurrentHostVersion(entries), registry, fate);
  }

  /** The first migration a run would try: the lowest registry version above `current`. */
  function FirstAttempt(current: int, registry: seq<int>): Option<int> {
    if registry == [] then None
    else if registry[0] > current then Some(registry[0])
    else FirstAttempt(current, registry[1..])
  }

  lemma {:induction false} FirstAttemptIsNext(current: int, registry: seq<int>, latest: int)
    requires Pending(registry, current, latest)
    ensures FirstAttempt(current, registry) == if current < latest then Some(current + 1) else None
    decreases |registry|
  {
    if registry != [] && registry[0] <= current {
      FirstAttemptIsNext(current, registry[1..], latest);
    }
  }

  /** A run leaves the host at a version the registry knows. */
  lemma RunStaysInTheRegistry(entries: seq<Entry>, registry: seq<int>, fate: int -> Fate)
    requires Bootstrapped(entries) && Accepts(entries, registry)
    ensures var after := entries + ApplySystemMigrations(entries, registry, fate).logged;
            Bootstrapped(after) && 1 <= CurrentHostVersion(after) <= LatestRegistryVersion(registry)
  {
    OneRun(entries, registry, fate);
    AcceptedIsPending(entries, registry);
    RunFromFacts(CurrentHostVersion(entries), registry, LatestRegistryVersion(registry), fate);
    CurrentIsLastSuccess(entries + ApplySystemMigrations(entries, registry, fate).logged);
  }

  /** After an accepted run, any later registry that holds at least as much is accepted, and
      tries the version after the last success first. */
  lemma NextRunStartsAfterTheLastSuccess(entries: seq<Entry>, registry: seq<int>, fate: int -> Fate, later: seq<int>)
    requires Bootstrapped(entries) && Accepts(entries, registry)
    requires ValidRegistry(later) && |registry| <= |later|
    ensures var after := entries + ApplySystemMigrations(entries, registry, fate).logged;
            var current := CurrentHostVersion(after);
            && Accepts(after, later)
            && FirstAttempt(current, later) ==
                 if current < LatestRegistryVersion(later) then Some(current + 1) else None
  {
    var after := entries + ApplySystemMigrations(entries, registry, fate).logged;
    RunStaysInTheRegistry(entries, registry, fate);
    AcceptedIsPending(after, later);
    FirstAttemptIsNext(CurrentHostVersion(after), later, LatestRegistryVersion(later));
  }

  /** A failed run is resumed at exactly the migration that failed, by any later registry
      that still holds it. */
  lemma FailedRunResumes(entries: seq<Entry>, registry: seq<int>, fate: int -> Fate, later: seq<int>)
    requires Bootstrapped(entries)
    requires ApplySystemMigrations(entries, registry, fate).end.FailedAt?
    requires ValidRegistry(later) && |registry| <= |later|
    ensures var run := ApplySystemMigrations(entries, registry, fate);
            FirstAttempt(CurrentHostVersion(entries + run.logged), later) == Some(run.end.version)
  {
    OneRun(entries, registry, fate);
    NextRunStartsAfterTheLastSuccess(entries, registry, fate, later);
    AcceptedIsPending(entries, registry);
    RunFromFacts(CurrentHostVersion(entries), registry, LatestRegistryVersion(registry), fate);
  }

  /** After a crash the resumed migration is the one that was running, unless its success had
      already reached the log: then it is the one after it. */
  lemma CrashedRunResumes(entries: seq<Entry>, registry: seq<int>, fate: int -> Fate, later: seq<int>)
    requires Bootstrapped(entries)
    requires ApplySystemMigrations(entries, registry, fate).end.DiedAt?
    requires ValidRegistry(later) && |registry| <= |later|
    ensures var run := ApplySystemMigrations(entries, registry, fate);
            var v := run.end.version;
            var next := FirstAttempt(CurrentHostVersion(entries + run.logged), later);
            || next == Some(v)
            || (&& run.logged != [] && run.logged[|run.logged| - 1].success && run.logged[|run.logged| - 1].version == v
                && next == if v < LatestRegistryVersion(later) then Some(v + 1) else None)
  {
    var run := ApplySystemMigrations(entries, registry, fate);
    OneRun(entries, registry, fate);
    NextRunStartsAfterTheLastSuccess(entries, registry, fate, later);
    AcceptedIsPending(entries, registry);
    var current, latest := CurrentHostVersion(entries), LatestRegistryVersion(registry);
    RunFromFacts(current, registry, latest, fate);
    if run.end.version == current + |Successes(run.logged)| {
      DeathAfterSuccess(current, registry, latest, fate);
    }
  }

  lemma {:induction false} DeathAfterSuccess(current: int, registry: seq<int>, latest: int, fate: int -> Fate)
    requires Pending(registry, current, latest)
    requires var run := RunFrom(current, registry, fate);
             run.end.DiedAt? && run.end.version == current + |Successes(run.logged)|
    ensures var logged := RunFrom(current, registry, fate).logged;
            && logged != [] && logged[|logged| - 1].success
            && logged[|logged| - 1].version == RunFrom(current, registry, fate).end.version
    decreases |registry|
  {
    assert Successes([]) == [];
    var v, rest := registry[0], registry[1..];
    if v <= current {
      DeathAfterSuccess(current, rest, latest, fate);
    } else {
      SuccessesOfRecords(v, fate(v));
      if fate(v).Completes? {
        SuccessesConcat(Records(v, fate(v)), RunFrom(v, rest, fate).logged);
        DeathAfterSuccess(v, rest, latest, fate);
      }
    }
  }

  // ---- any number of runs -----------------------------------------------------------

  datatype Attempt = Attempt(registry: seq<int>, fate: int -> Fate)

  function Runs(entries: seq<Entry>, attempts: seq<Attempt>): seq<Entry> {
    if attempts == [] then entries
    else
      var before := Runs(entries, attempts[..|attempts| - 1]);
      var a := attempts[|attempts| - 1];
      before + ApplySystemMigrations(before, a.registry, a.fate).logged
  }

  /** Over any number of runs, each with its own registry, failures and crashes: the log only
      grows and its successful versions go up by exactly one each time. */
  lemma {:induction false} HistoryStaysContiguous(entries: seq<Entry>, attempts: seq<Attempt>)
    requires Bootstrapped(entries)
    ensures entries <= Runs(entries, attempts)
    ensures Contiguous(Successes(Runs(entries, attempts)))
    ensures Bootstrapped(Runs(entries, attempts))
    ensures CurrentHostVersion(entries) <= CurrentHostVersion(Runs(entries, attempts))
  {
    if attempts != [] {
      var init, a := attempts[..|attempts| - 1], attempts[|attempts| - 1];
      HistoryStaysContiguous(entries, init);
      OneRun(Runs(entries, init), a.registry, a.fate);
    }
  }
}
