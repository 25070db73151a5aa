/**
 The exclusive-operation lock (core/operation_locks.py): one owner task at a time, and failures
 of operations nobody awaits any more are logged.
 */
module OperationLocks {
  import opened Options

  type TaskId = string

  datatype Outcome = Succeeded | Failed | Cancelled

  /** A task is created, has taken its first step, has finished, and its done callback has run. */
  datatype Phase = Created | Started | Finished(outcome: Outcome) | Reported(outcome: Outcome)

  /** `operations` and `detached` are the module's two task sets; `log` names whose failure was logged. */
  datatype State = State(locked: bool, operations: set<TaskId>, detached: set<TaskId>,
                         phases: map<TaskId, Phase>, log: seq<TaskId>)

  predicate Done(p: Phase) { p.Finished? || p.Reported? }

  /** `_log_detached_failure`. */
  function Logged(log: seq<TaskId>, t: TaskId, outcome: Outcome): seq<TaskId> {
    if outcome == Failed then log + [t] else log
  }

  datatype Event =
    | Start(task: TaskId)
    | FirstStep(task: TaskId)
    | Finish(task: TaskId, outcome: Outcome)
    | CancelUnstarted(task: TaskId)
    | Callback(task: TaskId)
    | Detach(task: TaskId)

  predicate Step(s: State, event: Event, s': State) {
    match event
    case Start(t) =>
      t !in s.phases
      && s' == if s.locked then s
               else s.(locked := true, operations := s.operations + {t}, phases := s.phases[t := Created])
    case FirstStep(t) => t in s.phases && s.phases[t] == Created && s' == s.(phases := s.phases[t := Started])
    // The `finally` of the owner releases the lock, however the operation ends.
    case Finish(t, outcome) =>
      t in s.phases && s.phases[t] == Started && s' == s.(locked := false, phases := s.phases[t := Finished(outcome)])
    // A task cancelled before its first step never enters the `try`.
    case CancelUnstarted(t) =>
      t in s.phases && s.phases[t] == Created && s' == s.(phases := s.phases[t := Finished(Cancelled)])
    case Callback(t) =>
      t in s.phases && s.phases[t].Finished?
      && s' == s.(operations := s.operations - {t}, detached := s.detached - {t},
                  phases := s.phases[t := Reported(s.phases[t].outcome)],
                  log := if t in s.detached then Logged(s.log, t, s.phases[t].outcome) else s.log)
    case Detach(t) =>
      t in s.phases
      && s' == if Done(s.phases[t]) then s.(log := Logged(s.log, t, s.phases[t].outcome))
               else s.(detached := s.detached + {t})
  }

  ghost predicate IsRun(events: seq<Event>, states: seq<State>) {
    && |states| == |events| + 1 && states[0] == State(false, {}, {}, map[], [])
    && forall i :: 0 <= i < |events| ==> Step(states[i], events[i], states[i + 1])
  }

  // ---- one owner at a time ----------------------------------------------------------------------

  predicate Unfinished(s: State, t: TaskId) { t in s.phases && !Done(s.phases[t]) }

  /** The lock is held exactly while an owner is unfinished, and there is at most one. */
  ghost predicate OneOwner(s: State) {
    && (s.locked <==> exists t :: Unfinished(s, t))
    && forall t, u :: Unfinished(s, t) && Unfinished(s, u) ==> t == u
  }

  lemma SameOwner(s: State, s': State)
    requires OneOwner(s) && s'.locked == s.locked && forall t :: Unfinished(s', t) <==> Unfinished(s, t)
    ensures OneOwner(s')
  {
    if s.locked {
      var t :| Unfinished(s, t);
      assert Unfinished(s', t);
    }
  }

  lemma StartKeepsOneOwner(s: State, t: TaskId, s': State)
    requires OneOwner(s) && Step(s, Start(t), s')
    ensures OneOwner(s')
  {
    if !s.locked {
      assert Unfinished(s', t);
      forall u | u != t ensures !Unfinished(s', u) {
        assert !Unfinished(s, u);
      }
    }
  }

  lemma FinishKeepsOneOwner(s: State, t: TaskId, outcome: Outcome, s': State)
    requires OneOwner(s) && Step(s, Finish(t, outcome), s')
    ensures OneOwner(s')
  {
    assert Unfinished(s, t);
    forall u ensures !Unfinished(s', u) {
      assert Unfinished(s, u) ==> u == t;
    }
  }

  lemma OtherStepKeepsOneOwner(s: State, event: Event, s': State)
    requires OneOwner(s) && Step(s, event, s') && (event.FirstStep? || event.Callback? || event.Detach?)
    ensures OneOwner(s')
  {
    forall t ensures Unfinished(s', t) <==> Unfinished(s, t) {
    }
    SameOwner(s, s');
  }

  lemma StepKeepsOneOwner(s: State, event: Event, s': State)
    requires OneOwner(s) && Step(s, event, s') && !event.CancelUnstarted?
    ensures OneOwner(s')
  {
    match event
    case Start(t) => StartKeepsOneOwner(s, t, s');
    case Finish(t, outcome) => FinishKeepsOneOwner(s, t, outcome, s');
    case FirstStep(_) => OtherStepKeepsOneOwner(s, event, s');
    case Callback(_) => OtherStepKeepsOneOwner(s, event, s');
    case Detach(_) => OtherStepKeepsOneOwner(s, event, s');
  }

  predicate NeverCancelledUnstarted(events: seq<Event>) { forall e :: e in events ==> !e.CancelUnstarted? }

  /** As long as no owner is cancelled before its first step, the lock is held exactly while one
      owner is unfinished. */
  lemma {:induction false} LockHeldWhileOneOwnerWorks(events: seq<Event>, states: seq<State>, i: nat)
    requires IsRun(events, states) && i <= |events| && NeverCancelledUnstarted(events[..i])
    ensures OneOwner(states[i])
  {
    if i > 0 {
      assert events[..i] == events[..i - 1] + [events[i - 1]];
      LockHeldWhileOneOwnerWorks(events, states, i - 1);
      assert events[i - 1] in events[..i];
      StepKeepsOneOwner(states[i - 1], events[i - 1], states[i]);
    }
  }

  /** A start that finds an owner at work is refused and changes nothing; any other makes an owner. */
  lemma ConcurrentStartChangesNothing(events: seq<Event>, states: seq<State>, i: nat, t: TaskId)
    requires IsRun(events, states) && i < |events| && NeverCancelledUnstarted(events[..i]) && events[i] == Start(t)
    ensures (exists u :: Unfinished(states[i], u)) ==> states[i + 1] == states[i]
    ensures (forall u :: !Unfinished(states[i], u)) ==> Unfinished(states[i + 1], t)
  {
    LockHeldWhileOneOwnerWorks(events, states, i);
  }

  /** The lock is held and nobody is left to release it. */
  predicate Leaked(s: State) { s.locked && forall t :: t in s.phases ==> Done(s.phases[t]) }

  /** Cancelling the owner before its first step leaks the lock. */
  lemma CancellingTooEarlyLeaks(s: State, t: TaskId, s': State)
    requires OneOwner(s) && Step(s, CancelUnstarted(t), s')
    ensures Leaked(s')
  {
    assert Unfinished(s, t);
    forall u | u in s'.phases ensures Done(s'.phases[u]) {
      assert Unfinished(s, u) ==> u == t;
    }
  }

  /** A leak is for good: every later start is refused. */
  lemma LeakStays(s: State, event: Event, s': State)
    requires Leaked(s) && Step(s, event, s')
    ensures Leaked(s') && (event.Start? ==> s' == s)
  {
  }

  lemma {:induction false} LeakedAfterCancelling(events: seq<Event>, states: seq<State>, i: nat)
    requires IsRun(events, states) && i <= |events| && !NeverCancelledUnstarted(events[..i])
    ensures Leaked(states[i])
  {
    if i > 0 {
      assert events[..i] == events[..i - 1] + [events[i - 1]];
      if NeverCancelledUnstarted(events[..i - 1]) {
        assert events[i - 1].CancelUnstarted?;
        LockHeldWhileOneOwnerWorks(events, states, i - 1);
        CancellingTooEarlyLeaks(states[i - 1], events[i - 1].task, states[i]);
      } else {
        LeakedAfterCancelling(events, states, i - 1);
        LeakStays(states[i - 1], events[i - 1], states[i]);
      }
    }
  }

  /** After any run the lock is held exactly while one owner is unfinished, if and only if no owner
      was cancelled before its first step. */
  lemma OneOwnerExactlyWhen(events: seq<Event>, states: seq<State>)
    requires IsRun(events, states)
    ensures OneOwner(states[|events|]) <==> NeverCancelledUnstarted(events)
  {
    assert events[..|events|] == events;
    if NeverCancelledUnstarted(events) {
      LockHeldWhileOneOwnerWorks(events, states, |events|);
    } else {
      LeakedAfterCancelling(events, states, |events|);
    }
  }

  // ---- waiting for operations ----------------------------------------------------------------------

  /** A task is in the module's set until its callback has run. */
  lemma {:induction false} KnownUntilReported(events: seq<Event>, states: seq<State>, i: nat, t: TaskId)
    requires IsRun(events, states) && i < |states|
    ensures t in states[i].operations <==> t in states[i].phases && !states[i].phases[t].Reported?
  {
    if i > 0 {
      KnownUntilReported(events, states, i - 1, t);
      assert Step(states[i - 1], events[i - 1], states[i]);
    }
  }

  /** `wait_for_operations` returns once the set is empty.  Then no owner is unfinished and every
      callback has run, and the lock is free if and only if no owner was cancelled before its first
      step. */
  lemma QuietAfterWaiting(events: seq<Event>, states: seq<State>, t: TaskId)
    requires IsRun(events, states) && states[|events|].operations == {}
    ensures !Unfinished(states[|events|], t)
    ensures t in states[|events|].phases ==> states[|events|].phases[t].Reported?
    ensures !states[|events|].locked <==> NeverCancelledUnstarted(events)
  {
    var last := states[|events|];
    forall u ensures u in last.phases ==> last.phases[u].Reported? {
      KnownUntilReported(events, states, |events|, u);
    }
    assert events[..|events|] == events;
    if NeverCancelledUnstarted(events) {
      LockHeldWhileOneOwnerWorks(events, states, |events|);
    } else {
      LeakedAfterCancelling(events, states, |events|);
    }
  }

  // ---- failures are logged once -------------------------------------------------------------------

  function Logs(log: seq<TaskId>, t: TaskId): nat {
    if log == [] then 0 else Logs(log[..|log| - 1], t) + if log[|log| - 1] == t then 1 else 0
  }

  function Detaches(events: seq<Event>, t: TaskId): nat {
    if events == [] then 0
    else Detaches(events[..|events| - 1], t) + if events[|events| - 1] == Detach(t) then 1 else 0
  }

  lemma LogsAfterLogging(log: seq<TaskId>, u: TaskId, outcome: Outcome, t: TaskId)
    ensures Logs(Logged(log, u, outcome), t) == Logs(log, t) + if u == t && outcome == Failed then 1 else 0
  {
    assert (log + [u])[..|log|] == log;
  }

  function Due(outcome: Outcome): nat { if outcome == Failed then 1 else 0 }

  /** Where a task stands after `n` detaches, for `n` up to one. */
  predicate Standing(s: State, t: TaskId, n: nat) {
    var waits, logs := t in s.detached, Logs(s.log, t);
    if t !in s.phases then !waits && logs == 0 && n == 0
    else if n == 0 then !waits && logs == 0
    else if n > 1 then true
    else match s.phases[t]
         case Created => waits && logs == 0
         case Started => waits && logs == 0
         case Finished(outcome) => (waits && logs == 0) || (!waits && logs == Due(outcome))
         case Reported(outcome) => !waits && logs == Due(outcome)
  }

  lemma StepKeepsStanding(s: State, event: Event, s': State, t: TaskId, n: nat)
    requires Standing(s, t, n) && Step(s, event, s')
    ensures Standing(s', t, n + if event == Detach(t) then 1 else 0)
  {
    if event.Callback? || event.Detach? {
      if event.task in s.phases && Done(s.phases[event.task]) {
        LogsAfterLogging(s.log, event.task, s.phases[event.task].outcome, t);
      }
    }
  }

  lemma {:induction false} StandingThroughout(events: seq<Event>, states: seq<State>, i: nat, t: TaskId)
    requires IsRun(events, states) && i < |states|
    ensures Standing(states[i], t, Detaches(events[..i], t))
  {
    if i > 0 {
      StandingThroughout(events, states, i - 1, t);
      StepKeepsStanding(states[i - 1], events[i - 1], states[i], t, Detaches(events[..i - 1], t));
      assert events[..i][..i - 1] == events[..i - 1];
    }
  }

  /** An operation detached once, whether before it finishes, after, or between finishing and its
      callback, is logged exactly once if it fails and never otherwise. */
  lemma FailureIsLoggedOnce(events: seq<Event>, states: seq<State>, t: TaskId)
    requires IsRun(events, states) && Detaches(events, t) == 1
    requires t in states[|events|].phases && states[|events|].phases[t].Reported?
    ensures Logs(states[|events|].log, t) == if states[|events|].phases[t].outcome == Failed then 1 else 0
  {
    StandingThroughout(events, states, |events|, t);
    assert events[..|events|] == events;
  }

  /** An operation whose request awaits it to the end is not logged. */
  lemma AwaitedOperationIsNotLogged(events: seq<Event>, states: seq<State>, t: TaskId)
    requires IsRun(events, states) && Detaches(events, t) == 0
    ensures Logs(states[|events|].log, t) == 0
  {
    StandingThroughout(events, states, |events|, t);
    assert events[..|events|] == events;
  }

  // ---- the module ------------------------------------------------------------------------------------

  class Operations {
    var locked: bool
    var operations: set<TaskId>
    var detached: set<TaskId>
    var phases: map<TaskId, Phase>
    var log: seq<TaskId>

    function View(): State
      reads this
    {
      State(locked, operations, detached, phases, log)
    }

    constructor ()
      ensures View() == State(false, {}, {}, map[], [])
    {
      locked, operations, detached, phases, log := false, {}, {}, map[], [];
    }

    /** `creates` says whether the event loop accepts a new one. */
    method StartExclusiveOperation(t: TaskId, creates: bool) returns (task: Option<TaskId>)
      requires t !in phases
      modifies this
      ensures task == if old(locked) || !creates then None else Some(t)
      ensures if creates then Step(old(View()), Start(t), View()) else View() == old(View())
    {
      if locked { return None; }
      locked := true;
      if !creates {
        locked := false;
        return None;
      }
      phases := phases[t := Created];
      operations := operations + {t};
      task := Some(t);
    }

    /** The owner, from its first step to its last. */
    method RunAsOwner(t: TaskId, outcome: Outcome)
      requires t in phases && phases[t] == Created
      modifies this
      ensures exists mid :: Step(old(View()), FirstStep(t), mid) && Step(mid, Finish(t, outcome), View())
      ensures !locked
    {
      phases := phases[t := Started];
      ghost var mid := View();
      locked := false;
      phases := phases[t := Finished(outcome)];
      assert Step(mid, Finish(t, outcome), View());
    }

    method LogDetachedFailure(t: TaskId)
      requires t in phases && Done(phases[t])
      modifies this`log
      ensures log == Logged(old(log), t, phases[t].outcome)
    {
      if phases[t].outcome == Failed {
        log := log + [t];
      }
    }

    method OperationDone(t: TaskId)
      requires t in phases && phases[t].Finished?
      modifies this
      ensures Step(old(View()), Callback(t), View())
    {
      operations := operations - {t};
      if t in detached {
        detached := detached - {t};
        LogDetachedFailure(t);
      }
      phases := phases[t := Reported(phases[t].outcome)];
    }

    method DetachOperation(t: TaskId)
      requires t in phases
      modifies this
      ensures Step(old(View()), Detach(t), View())
    {
      if Done(phases[t]) {
        LogDetachedFailure(t);
      } else {
        detached := detached + {t};
      }
    }
  }
}
