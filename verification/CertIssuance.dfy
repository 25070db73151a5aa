/**
 Certificate acquisitions sharing one DNS-01 record (core/tls/provision.py,
 core/tls/acquire_cert_broker.py): every interleaving of their steps.

 Every challenge is answered from the one `_acme-challenge` name (section 8.4 of RFC 8555), so
 the record is a single cell of the DNS provider's table (core/dns/coredns_provider/interface.py).
 What is served is what the provider last wrote to its files from that table.
 */
module CertIssuance {
  import opened Options

  type TaskId = nat
  type Loop = nat

  datatype Phase = Waiting | Holding | Published(values: seq<string>) | Ended

  datatype Task = Task(loop: Loop, phase: Phase)

  /** `locks`: each event loop's issuance lock, made on demand, and who holds it.
      `record`: the entry of the provider's table; `files`: what the zone files hold. */
  datatype State = State(tasks: map<TaskId, Task>, locks: map<Loop, Option<TaskId>>,
                         record: Option<seq<string>>, files: seq<string>)

  const START := State(map[], map[], None, [])

  /** `tabled`: the table was set; `wrote`: the files were written. */
  datatype Event =
    | Request(task: TaskId, loop: Loop, servesZones: bool)
    | Acquire(task: TaskId)
    | GiveUp(task: TaskId)
    | Publish(task: TaskId, values: seq<string>, wrote: bool)
    | PublishRaises(task: TaskId, values: seq<string>, tabled: bool, wrote: bool)
    | Clear(task: TaskId, values: seq<string>, wrote: bool)
    | ChangeZones(wrote: bool)

  function With(s: State, t: TaskId, phase: Phase): map<TaskId, Task>
    requires t in s.tasks
  {
    s.tasks[t := s.tasks[t].(phase := phase)]
  }

  /** The lock of a loop, made on demand. */
  function Holder(locks: map<Loop, Option<TaskId>>, loop: Loop): Option<TaskId> {
    if loop in locks then locks[loop] else None
  }

  predicate Step(s: State, event: Event, s': State) {
    match event
    // Without a zone to answer from, the acquisition fails before the lock.
    case Request(t, loop, servesZones) =>
      t !in s.tasks && s' == s.(tasks := s.tasks[t := Task(loop, if servesZones then Waiting else Ended)])
    case Acquire(t) =>
      t in s.tasks && s.tasks[t].phase == Waiting && Holder(s.locks, s.tasks[t].loop) == None
      && s' == s.(tasks := With(s, t, Holding), locks := s.locks[s.tasks[t].loop := Some(t)])
    // Cancelled while waiting, or an exception before the record is set: the lock is released.
    case GiveUp(t) =>
      t in s.tasks
      && (if s.tasks[t].phase == Waiting then s' == s.(tasks := With(s, t, Ended))
          else s.tasks[t].phase == Holding
               && s' == s.(tasks := With(s, t, Ended), locks := s.locks[s.tasks[t].loop := None]))
    // A record that is set already is not written again.
    case Publish(t, values, wrote) =>
      t in s.tasks && s.tasks[t].phase == Holding && (wrote <==> s.record != Some(values))
      && s' == s.(tasks := With(s, t, Published(values)), record := Some(values),
                  files := if wrote then values else s.files)
    // Publishing comes before the `try`: nothing is cleared when it raises.
    case PublishRaises(t, values, tabled, wrote) =>
      t in s.tasks && s.tasks[t].phase == Holding && (wrote ==> tabled) && (tabled ==> s.record != Some(values))
      && s' == s.(tasks := With(s, t, Ended), locks := s.locks[s.tasks[t].loop := None],
                  record := if tabled then Some(values) else s.record, files := if wrote then values else s.files)
    // The `finally` block runs however the polling went: the record goes, and the files are written
    // unless that raises; then the lock is released.
    case Clear(t, values, wrote) =>
      t in s.tasks && s.tasks[t].phase == Published(values) && (wrote ==> s.record.Some?)
      && s' == s.(tasks := With(s, t, Ended), locks := s.locks[s.tasks[t].loop := None],
                  record := None, files := if wrote then [] else s.files)
    // A zone that comes or goes has all files written again.
    case ChangeZones(wrote) => s' == s.(files := if wrote then Shown(s.record) else s.files)
  }

  /** What the files hold once the table has been written to them. */
  function Shown(record: Option<seq<string>>): seq<string> { record.GetOr([]) }

  /** A publish that raised has left its values in the table, and nothing has replaced them since. */
  predicate Stale(events: seq<Event>) {
    if events == [] then false
    else
      match events[|events| - 1]
      case Publish(_, _, _) => false
      case PublishRaises(_, _, true, _) => true
      case Clear(_, _, _) => false
      case _ => Stale(events[..|events| - 1])
  }

  ghost predicate IsRun(events: seq<Event>, states: seq<State>) {
    && |states| == |events| + 1 && states[0] == START
    && forall i :: 0 <= i < |events| ==> Step(states[i], events[i], states[i + 1])
  }

  predicate Critical(task: Task) { task.phase == Holding || task.phase.Published? }

  /** Whoever is past the lock holds it, on its own loop. */
  predicate LocksHeld(s: State) {
    forall t :: t in s.tasks && Critical(s.tasks[t]) ==> Holder(s.locks, s.tasks[t].loop) == Some(t)
  }

  predicate OneLoop(s: State, loop: Loop) { forall t :: t in s.tasks ==> s.tasks[t].loop == loop }

  predicate Publishes(s: State, t: TaskId, values: seq<string>) {
    t in s.tasks && s.tasks[t].phase == Published(values)
  }

  ghost predicate SomeoneHasPublished(s: State) { exists t, values :: Publishes(s, t, values) }

  /** The record is its publisher's; when there is none, it is empty unless it is stale. */
  ghost predicate RecordIsOwn(s: State, stale: bool) {
    && (forall t, values :: Publishes(s, t, values) ==> s.record == Some(values) && !stale)
    && (!SomeoneHasPublished(s) ==> (s.record.Some? <==> stale))
  }

  lemma StepKeepsLocks(s: State, event: Event, s': State)
    requires LocksHeld(s) && Step(s, event, s')
    ensures LocksHeld(s')
  {
  }

  /** On one loop the lock admits one task at a time. */
  lemma OnlyOneIsCritical(s: State, loop: Loop, t: TaskId, u: TaskId)
    requires LocksHeld(s) && OneLoop(s, loop) && t in s.tasks && u in s.tasks
    requires Critical(s.tasks[t]) && Critical(s.tasks[u])
    ensures t == u
  {
    assert Holder(s.locks, s.tasks[t].loop) == Some(t) && Holder(s.locks, s.tasks[u].loop) == Some(u);
  }

  lemma PublishKeepsRecord(s: State, t: TaskId, values: seq<string>, wrote: bool, s': State, loop: Loop)
    requires LocksHeld(s) && OneLoop(s, loop) && Step(s, Publish(t, values, wrote), s')
    ensures RecordIsOwn(s', false)
  {
    assert Publishes(s', t, values);
    forall u, theirs | Publishes(s', u, theirs) ensures s'.record == Some(theirs) {
      if u != t {
        OnlyOneIsCritical(s, loop, t, u);
      }
    }
  }

  /** Whoever ends its turn past the lock leaves nobody published. */
  lemma NobodyElsePublishes(s: State, t: TaskId, s': State, loop: Loop)
    requires LocksHeld(s) && OneLoop(s, loop) && t in s.tasks && Critical(s.tasks[t])
    requires s'.tasks == With(s, t, Ended)
    ensures !SomeoneHasPublished(s')
  {
    forall u, theirs ensures !Publishes(s', u, theirs) {
      if u != t && Publishes(s', u, theirs) {
        OnlyOneIsCritical(s, loop, t, u);
      }
    }
  }

  lemma NobodyPublishesBeside(s: State, t: TaskId, loop: Loop)
    requires LocksHeld(s) && OneLoop(s, loop) && t in s.tasks && s.tasks[t].phase == Holding
    ensures !SomeoneHasPublished(s)
  {
    forall u, theirs ensures !Publishes(s, u, theirs) {
      if Publishes(s, u, theirs) {
        OnlyOneIsCritical(s, loop, t, u);
      }
    }
  }

  predicate TouchesRecord(event: Event) { event.Publish? || event.PublishRaises? || event.Clear? }

  lemma OtherStepKeepsRecord(s: State, event: Event, s': State, stale: bool)
    requires RecordIsOwn(s, stale) && Step(s, event, s') && !TouchesRecord(event)
    ensures RecordIsOwn(s', stale)
  {
    forall t, values ensures Publishes(s, t, values) <==> Publishes(s', t, values) {
    }
  }

  lemma StepKeepsRecord(s: State, events: seq<Event>, s': State, loop: Loop)
    requires events != [] && LocksHeld(s) && OneLoop(s, loop)
    requires RecordIsOwn(s, Stale(events[..|events| - 1])) && Step(s, events[|events| - 1], s')
    ensures RecordIsOwn(s', Stale(events))
  {
    var event := events[|events| - 1];
    if event.Publish? {
      PublishKeepsRecord(s, event.task, event.values, event.wrote, s', loop);
    } else if event.PublishRaises? {
      NobodyPublishesBeside(s, event.task, loop);
      NobodyElsePublishes(s, event.task, s', loop);
    } else if event.Clear? {
      assert Publishes(s, event.task, event.values);
      NobodyElsePublishes(s, event.task, s', loop);
    } else {
      OtherStepKeepsRecord(s, event, s', Stale(events[..|events| - 1]));
    }
  }

  lemma {:induction false} LocksHeldThroughout(events: seq<Event>, states: seq<State>, i: nat)
    requires IsRun(events, states) && i < |states|
    ensures LocksHeld(states[i])
  {
    if i > 0 {
      LocksHeldThroughout(events, states, i - 1);
      StepKeepsLocks(states[i - 1], events[i - 1], states[i]);
    }
  }

  /** Two acquisitions on one event loop are never past the lock together. */
  lemma OneAtATimePerLoop(events: seq<Event>, states: seq<State>, i: nat, t: TaskId, u: TaskId)
    requires IsRun(events, states) && i < |states| && t in states[i].tasks && u in states[i].tasks
    requires Critical(states[i].tasks[t]) && Critical(states[i].tasks[u])
    requires states[i].tasks[t].loop == states[i].tasks[u].loop
    ensures t == u
  {
    LocksHeldThroughout(events, states, i);
  }

  lemma TasksKeepTheirLoop(s: State, event: Event, s': State, loop: Loop)
    requires Step(s, event, s') && OneLoop(s', loop)
    ensures OneLoop(s, loop)
  {
    forall t | t in s.tasks ensures s.tasks[t].loop == loop {
      assert t in s'.tasks && s'.tasks[t].loop == s.tasks[t].loop;
    }
  }

  lemma {:induction false} RecordThroughout(events: seq<Event>, states: seq<State>, i: nat, loop: Loop)
    requires IsRun(events, states) && i < |states| && OneLoop(states[i], loop)
    ensures RecordIsOwn(states[i], Stale(events[..i]))
  {
    if i > 0 {
      TasksKeepTheirLoop(states[i - 1], events[i - 1], states[i], loop);
      RecordThroughout(events, states, i - 1, loop);
      LocksHeldThroughout(events, states, i - 1);
      assert events[..i][..i - 1] == events[..i - 1];
      StepKeepsRecord(states[i - 1], events[..i], states[i], loop);
    }
  }

  /** In every interleaving on one event loop, from publish to clear the provider's record holds
      exactly the acquisition's own values. */
  lemma ChallengeRecordIsItsOwn(events: seq<Event>, states: seq<State>, i: nat, loop: Loop, t: TaskId)
    requires IsRun(events, states) && i < |states| && OneLoop(states[i], loop)
    requires t in states[i].tasks && states[i].tasks[t].phase.Published?
    ensures states[i].record == Some(states[i].tasks[t].phase.values)
  {
    RecordThroughout(events, states, i, loop);
    assert Publishes(states[i], t, states[i].tasks[t].phase.values);
  }

  /** Once all have ended, by success or exception, the provider has no record left if and only if no
      publish that raised has left one that nothing replaced since. */
  lemma RecordEndsEmptyExactlyWhen(events: seq<Event>, states: seq<State>, loop: Loop)
    requires IsRun(events, states) && OneLoop(states[|events|], loop)
    requires forall t :: t in states[|events|].tasks ==> states[|events|].tasks[t].phase == Ended
    ensures states[|events|].record == None <==> !Stale(events)
  {
    RecordThroughout(events, states, |events|, loop);
    assert events[..|events|] == events;
  }

  // ---- what is served ---------------------------------------------------------------------------

  predicate Writes(event: Event) {
    match event
    case Publish(_, _, wrote) => wrote
    case PublishRaises(_, _, _, wrote) => wrote
    case Clear(_, _, wrote) => wrote
    case ChangeZones(wrote) => wrote
    case _ => false
  }

  /** How long the run was when the files were last written. */
  function LastWrite(events: seq<Event>): (n: nat)
    ensures n <= |events|
  {
    if events == [] then 0
    else if Writes(events[|events| - 1]) then |events|
    else LastWrite(events[..|events| - 1])
  }

  /** At any time, on any number of loops, the files show the record as it was when they were last
      written, whichever writes have failed since. */
  lemma {:induction false} FilesShowTheRecordAsLastWritten(events: seq<Event>, states: seq<State>, i: nat)
    requires IsRun(events, states) && i <= |events|
    ensures states[i].files == Shown(states[LastWrite(events[..i])].record)
  {
    if i > 0 {
      FilesShowTheRecordAsLastWritten(events, states, i - 1);
      assert events[..i][..i - 1] == events[..i - 1];
      assert Step(states[i - 1], events[i - 1], states[i]);
    }
  }

  /** A publish that raised after it had set the record, or a clear that did not write the files. */
  predicate Misfires(event: Event) {
    (event.PublishRaises? && event.tabled) || (event.Clear? && !event.wrote)
  }

  lemma {:induction false} NoMisfireNotStale(events: seq<Event>)
    requires forall e :: e in events ==> !Misfires(e)
    ensures !Stale(events)
  {
    if events != [] {
      assert events[|events| - 1] in events;
      NoMisfireNotStale(events[..|events| - 1]);
    }
  }

  /** Without a misfire the files follow the record at every step. */
  lemma {:induction false} FilesFollow(events: seq<Event>, states: seq<State>, i: nat)
    requires IsRun(events, states) && i <= |events| && forall e :: e in events[..i] ==> !Misfires(e)
    ensures states[i].files == Shown(states[i].record)
  {
    if i > 0 {
      assert events[..i] == events[..i - 1] + [events[i - 1]];
      FilesFollow(events, states, i - 1);
      assert Step(states[i - 1], events[i - 1], states[i]) && !Misfires(events[i - 1]);
    }
  }

  /** So without a misfire what is served from publish to clear is the acquisition's own. */
  lemma ChallengeIsServed(events: seq<Event>, states: seq<State>, i: nat, loop: Loop, t: TaskId)
    requires IsRun(events, states) && i < |states| && OneLoop(states[i], loop)
    requires t in states[i].tasks && states[i].tasks[t].phase.Published?
    requires forall e :: e in events[..i] ==> !Misfires(e)
    ensures states[i].files == states[i].tasks[t].phase.values
  {
    ChallengeRecordIsItsOwn(events, states, i, loop, t);
    FilesFollow(events, states, i);
  }

  /** And once all have ended neither the record nor what is served has anything left. */
  lemma RecordEndsEmpty(events: seq<Event>, states: seq<State>, loop: Loop)
    requires IsRun(events, states) && OneLoop(states[|events|], loop)
    requires forall t :: t in states[|events|].tasks ==> states[|events|].tasks[t].phase == Ended
    requires forall e :: e in events ==> !Misfires(e)
    ensures states[|events|].record == None && states[|events|].files == []
  {
    RecordEndsEmptyExactlyWhen(events, states, loop);
    NoMisfireNotStale(events);
    assert events[..|events|] == events;
    FilesFollow(events, states, |events|);
  }

  /** A publish that raises between setting the record and writing the files leaves its values in
      the table, and the next change of zones serves them. */
  lemma RaisingPublishLeavesItsValues(loop: Loop, mine: string)
    ensures var events :=
              [Request(0, loop, true), Acquire(0), PublishRaises(0, [mine], true, false), ChangeZones(true)];
            exists states: seq<State> ::
              IsRun(events, states) && states[4].tasks == map[0 := Task(loop, Ended)] && states[4].files == [mine]
  {
    var s1 := START.(tasks := map[0 := Task(loop, Waiting)]);
    var s2 := s1.(tasks := map[0 := Task(loop, Holding)], locks := map[loop := Some(0)]);
    var s3 := State(map[0 := Task(loop, Ended)], map[loop := None], Some([mine]), []);
    var s4 := s3.(files := [mine]);
    var events := [Request(0, loop, true), Acquire(0), PublishRaises(0, [mine], true, false), ChangeZones(true)];
    var states := [START, s1, s2, s3, s4];
    assert Step(START, events[0], s1) && Step(s1, events[1], s2) && Step(s2, events[2], s3) && Step(s3, events[3], s4);
    assert IsRun(events, states) && states[4] == s4;
  }

  /** The lock belongs to an event loop, not to the process: on two loops one acquisition
      overwrites the other's record, and then clears it. */
  lemma TwoLoopsCollide(a: Loop, b: Loop, mine: string, theirs: string)
    requires a != b && mine != theirs
    ensures exists events: seq<Event>, states: seq<State>, i: nat, t: TaskId ::
              IsRun(events, states) && i < |states| && t in states[i].tasks
              && states[i].tasks[t].phase == Published([mine]) && states[i].files == [theirs]
  {
    var s0 := START;
    var s1 := s0.(tasks := map[0 := Task(a, Waiting)]);
    var s2 := s1.(tasks := map[0 := Task(a, Holding)], locks := map[a := Some(0)]);
    var s3 := s2.(tasks := map[0 := Task(a, Published([mine]))], record := Some([mine]), files := [mine]);
    var s4 := s3.(tasks := s3.tasks[1 := Task(b, Waiting)]);
    var s5 := s4.(tasks := s3.tasks[1 := Task(b, Holding)], locks := s3.locks[b := Some(1)]);
    var s6 := s5.(tasks := s3.tasks[1 := Task(b, Published([theirs]))], record := Some([theirs]), files := [theirs]);
    var events := [Request(0, a, true), Acquire(0), Publish(0, [mine], true),
                   Request(1, b, true), Acquire(1), Publish(1, [theirs], true)];
    var states := [s0, s1, s2, s3, s4, s5, s6];
    assert Step(s0, events[0], s1) && Step(s1, events[1], s2) && Step(s2, events[2], s3);
    assert Step(s3, events[3], s4) && Step(s4, events[4], s5) && Step(s5, events[5], s6);
    assert IsRun(events, states) && states[6].tasks[0].phase == Published([mine]) && states[6].files == [theirs];
  }

  // ---- the program ------------------------------------------------------------------------------

  /** How an acquisition that has the lock goes: an exception before the record is set, or while it
      is being set; or it polls, and then clears the record, which may raise before the files are
      written. */
  datatype Fate =
    | FailsBefore
    | FailsPublishing(tabled: bool, wrote: bool)
    | Polls(issued: bool, clears: bool, raises: bool)

  class Issuer {
    var tasks: map<TaskId, Task>
    var locks: map<Loop, Option<TaskId>>
    var record: Option<seq<string>>
    var files: seq<string>

    function View(): State
      reads this
    {
      State(tasks, locks, record, files)
    }

    constructor ()
      ensures View() == START
    {
      tasks, locks, record, files := map[], map[], None, [];
    }

    /** `_issuance_lock`: makes the loop's lock the first time it is asked for. */
    method IssuanceLock(loop: Loop) returns (holder: Option<TaskId>)
      modifies this`locks
      ensures loop in locks && locks[loop] == holder == Holder(old(locks), loop)
      ensures forall l :: l != loop ==> (l in locks <==> l in old(locks)) && Holder(locks, l) == Holder(old(locks), l)
    {
      if loop !in locks {
        locks := locks[loop := None];
      }
      holder := locks[loop];
    }

    /** The acquisition fails before the record is set, or while it is. */
    method GiveUpHolding(t: TaskId, values: seq<string>, fate: Fate) returns (ghost event: Event)
      requires t in tasks && tasks[t].phase == Holding && !fate.Polls?
      requires fate.FailsPublishing? ==> (fate.wrote ==> fate.tabled) && (fate.tabled ==> record != Some(values))
      modifies this
      ensures Step(old(View()), event, View())
      ensures tasks == old(tasks)[t := old(tasks[t]).(phase := Ended)]
      ensures locks == old(locks)[old(tasks[t]).loop := None]
      ensures record == if fate.FailsPublishing? && fate.tabled then Some(values) else old(record)
      ensures files == if fate.FailsPublishing? && fate.wrote then values else old(files)
    {
      event := if fate.FailsBefore? then GiveUp(t) else PublishRaises(t, values, fate.tabled, fate.wrote);
      if fate.FailsPublishing? {
        if fate.tabled { record := Some(values); }
        if fate.wrote { files := values; }
      }
      var loop := tasks[t].loop;
      tasks, locks := tasks[t := tasks[t].(phase := Ended)], locks[loop := None];
    }

    /** `set_records`: a record that is set already is not written again. */
    method PublishRecord(t: TaskId, values: seq<string>) returns (ghost event: Event)
      requires t in tasks && tasks[t].phase == Holding
      modifies this`tasks, this`record, this`files
      ensures Step(old(View()), event, View())
      ensures tasks == old(tasks)[t := old(tasks[t]).(phase := Published(values))]
      ensures record == Some(values) && files == if old(record) == Some(values) then old(files) else values
    {
      event := Publish(t, values, record != Some(values));
      if record != Some(values) { record, files := Some(values), values; }
      tasks := tasks[t := tasks[t].(phase := Published(values))];
    }

    /** `delete_records`, and the release of the lock. */
    method ClearRecord(t: TaskId, values: seq<string>, wrote: bool)
      requires t in tasks && tasks[t].phase == Published(values) && record.Some?
      modifies this
      ensures Step(old(View()), Clear(t, values, wrote), View())
      ensures tasks == old(tasks)[t := old(tasks[t]).(phase := Ended)]
      ensures locks == old(locks)[old(tasks[t]).loop := None]
      ensures record == None && files == if wrote then [] else old(files)
    {
      record := None;
      if wrote { files := []; }
      var loop := tasks[t].loop;
      tasks, locks := tasks[t := tasks[t].(phase := Ended)], locks[loop := None];
    }

    /** One whole acquisition that nothing interleaves with, of a task that waits for a free lock:
        each write is a step, the lock ends free, and the record is gone, unless setting it raised. */
    method AcquireCertForDomain(t: TaskId, values: seq<string>, fate: Fate)
      returns (ok: bool, ghost events: seq<Event>, ghost states: seq<State>)
      requires t in tasks && tasks[t].phase == Waiting
      requires fate.Polls? && !fate.clears ==> fate.raises
      requires fate.FailsPublishing? ==> (fate.wrote ==> fate.tabled) && (fate.tabled ==> record != Some(values))
      requires Holder(locks, tasks[t].loop) == None
      modifies this
      ensures ok <==> fate.Polls? && fate.issued && !fate.raises
      ensures |states| == |events| + 1 && states[0] == old(View()) && states[|events|] == View()
      ensures forall i :: 0 <= i < |events| ==> Step(states[i], events[i], states[i + 1])
      ensures t in tasks && tasks[t].phase == Ended && Holder(locks, tasks[t].loop) == None
      ensures fate.FailsBefore? ==> record == old(record) && files == old(files)
      ensures fate.FailsPublishing? ==> record == (if fate.tabled then Some(values) else old(record))
                                        && files == if fate.wrote then values else old(files)
      ensures fate.Polls? ==> record == None
      ensures fate.Polls? && fate.clears ==> files == []
      ensures fate.Polls? && !fate.clears ==> files == if old(record) == Some(values) then old(files) else values
    {
      var loop := tasks[t].loop;
      ghost var s0 := View();
      tasks, locks := tasks[t := tasks[t].(phase := Holding)], locks[loop := Some(t)];
      ghost var s1 := View();
      assert Step(s0, Acquire(t), s1);
      if !fate.Polls? {
        ghost var last := GiveUpHolding(t, values, fate);
        return false, [Acquire(t), last], [s0, s1, View()];
      }
      ghost var publish := PublishRecord(t, values);
      ghost var s2 := View();
      ClearRecord(t, values, fate.clears);
      events, states := [Acquire(t), publish, Clear(t, values, fate.clears)], [s0, s1, s2, View()];
      ok := fate.issued && !fate.raises;
    }
  }
}
