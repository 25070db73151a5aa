/**
 `_poll_until_issued` (core/tls/acquire_cert_broker.py): polling with backoff against a moving clock.

 Time is a real number of seconds since the first reading of the clock.  `spent(k)` is what passes,
 beside sleeping, before the `k`-th reading after it; a sleep lasts at least as long as asked.
 */
module CertPolling {
  datatype Answer = Pending | Valid(certificate: string) | Raises

  /** `Unfinished`: the answers given have run out, the loop would go on. */
  datatype Result = Issued(certificate: string) | NoCertificate | RequestFailed | TimedOut | Unfinished

  function Sum(s: seq<real>): real { if s == [] then 0.0 else Sum(s[..|s| - 1]) + s[|s| - 1] }

  function Min(a: real, b: real): real { if a <= b then a else b }

  function Max(a: real, b: real): real { if a <= b then b else a }

  lemma SumGrows(s: seq<real>, x: real)
    ensures Sum(s + [x]) == Sum(s) + x
  {
    assert (s + [x])[..|s|] == s;
  }

  /** `n` times `x`, by repeated addition. */
  function Times(n: nat, x: real): real { if n == 0 then 0.0 else Times(n - 1, x) + x }

  lemma {:induction false} TimesIsProduct(n: nat, x: real)
    ensures Times(n, x) == n as real * x
  {
    if n > 0 {
      TimesIsProduct(n - 1, x);
      assert n as real * x == (n - 1) as real * x + x;
    }
  }

  // ---- backoff ---------------------------------------------------------------------------------

  function NextInterval(interval: real, factor: real, cap: real): real { Min(interval * factor, cap) }

  /** The interval the backoff has reached before the `i`-th sleep. */
  function Interval(i: nat, initial: real, factor: real, cap: real): real {
    if i == 0 then initial else NextInterval(Interval(i - 1, initial, factor, cap), factor, cap)
  }

  /** The usual setting: the interval never shrinks below the first one. */
  predicate Steady(initial: real, factor: real, cap: real) { factor >= 1.0 && 0.0 < initial <= cap }

  lemma Grows(x: real, factor: real)
    requires x > 0.0 && factor >= 1.0
    ensures x * factor >= x
  {
    assert x * (factor - 1.0) >= 0.0;
  }

  lemma {:induction false} IntervalIsBounded(i: nat, initial: real, factor: real, cap: real)
    ensures Interval(i, initial, factor, cap) <= Max(initial, cap)
    ensures Steady(initial, factor, cap) ==> Interval(i, initial, factor, cap) >= initial
  {
    if i > 0 {
      IntervalIsBounded(i - 1, initial, factor, cap);
      if Steady(initial, factor, cap) {
        Grows(Interval(i - 1, initial, factor, cap), factor);
      }
    }
  }

  /** The interval a backoff without a cap would have reached. */
  function Uncapped(i: nat, initial: real, factor: real): real {
    if i == 0 then initial else Uncapped(i - 1, initial, factor) * factor
  }

  lemma NextOfMin(x: real, factor: real, cap: real)
    requires x > 0.0 && factor >= 1.0 && cap > 0.0
    ensures x * factor > 0.0 && NextInterval(Min(x, cap), factor, cap) == Min(x * factor, cap)
  {
    Grows(x, factor);
    Grows(cap, factor);
  }

  /** In the usual setting the interval is the first one times a power of the factor, or the cap. */
  lemma {:induction false} IntervalIsAPower(i: nat, initial: real, factor: real, cap: real)
    requires Steady(initial, factor, cap)
    ensures Interval(i, initial, factor, cap) == Min(Uncapped(i, initial, factor), cap)
    ensures Uncapped(i, initial, factor) > 0.0
  {
    if i > 0 {
      IntervalIsAPower(i - 1, initial, factor, cap);
      NextOfMin(Uncapped(i - 1, initial, factor), factor, cap);
    }
  }

  /** Every sleep is the backoff's interval, but for the last, which the deadline may cut short;
      `early` while the deadline has not been reached. */
  predicate FollowsBackoff(sleeps: seq<real>, initial: real, factor: real, cap: real, early: bool) {
    forall i :: 0 <= i < |sleeps| ==>
      && 0.0 < sleeps[i] <= Interval(i, initial, factor, cap)
      && (early || i < |sleeps| - 1 ==> sleeps[i] == Interval(i, initial, factor, cap))
  }

  // ---- one sleep --------------------------------------------------------------------------------

  /** In all the sleeps do not last longer than the timeout; if none but one the deadline cut short
      is below `least`, only so many of them fit. */
  predicate SleptWell(sleeps: seq<real>, least: real, timeout: real, early: bool) {
    && Sum(sleeps) <= Max(timeout, 0.0)
    && (least > 0.0 && early ==> Times(|sleeps|, least) <= Sum(sleeps))
    && (least > 0.0 && sleeps != [] ==> Times(|sleeps| - 1, least) <= timeout)
  }

  lemma OneMoreSleep(sleeps: seq<real>, least: real, timeout: real, interval: real, remaining: real)
    requires SleptWell(sleeps, least, timeout, true) && (least > 0.0 ==> interval >= least)
    requires interval > 0.0 && remaining > 0.0 && Sum(sleeps) + remaining <= timeout
    ensures SleptWell(sleeps + [Min(interval, remaining)], least, timeout, Min(interval, remaining) < remaining)
    ensures Sum(sleeps + [Min(interval, remaining)]) == Sum(sleeps) + Min(interval, remaining)
  {
    SumGrows(sleeps, Min(interval, remaining));
    assert Times(|sleeps| + 1, least) == Times(|sleeps|, least) + least;
  }

  ghost predicate PassesForward(spent: nat -> real) { forall k :: spent(k) >= 0.0 }

  /** What passes beside sleeping up to the `n`-th reading after the first. */
  function Passed(spent: nat -> real, n: nat): real { if n == 0 then 0.0 else Passed(spent, n - 1) + spent(n) }

  /** `elapsed` is what has been slept and what has passed beside. */
  predicate OnTime(spent: nat -> real, sleeps: seq<real>, elapsed: real, readings: nat) {
    elapsed == Sum(sleeps) + Passed(spent, readings) && elapsed >= Sum(sleeps)
  }

  /** One more sleep, of the interval, or less if the deadline has been reached. */
  predicate OneMore(sleeps: seq<real>, sleeps': seq<real>, interval: real, early: bool) {
    && |sleeps'| == |sleeps| + 1 && sleeps'[..|sleeps|] == sleeps
    && 0.0 < sleeps'[|sleeps|] <= interval && (early ==> sleeps'[|sleeps|] == interval)
  }

  lemma BackoffGoesOn(sleeps: seq<real>, sleeps': seq<real>, initial: real, factor: real, cap: real, early: bool)
    requires FollowsBackoff(sleeps, initial, factor, cap, true)
    requires OneMore(sleeps, sleeps', Interval(|sleeps|, initial, factor, cap), early)
    ensures FollowsBackoff(sleeps', initial, factor, cap, early)
  {
    forall i | 0 <= i < |sleeps| ensures sleeps'[i] == sleeps[i] {
      assert sleeps'[..|sleeps|][i] == sleeps[i];
    }
  }

  /** The second half of a turn: sleep for the interval or until the deadline, unless it has come. */
  method SleepOnce(ghost least: real, timeout: real, spent: nat -> real, sleeps: seq<real>, interval: real,
                   elapsed: real, readings: nat)
    returns (slept: bool, sleeps': seq<real>, elapsed': real, readings': nat)
    requires PassesForward(spent) && (least > 0.0 ==> interval >= least)
    requires OnTime(spent, sleeps, elapsed, readings) && SleptWell(sleeps, least, timeout, true)
    ensures OnTime(spent, sleeps', elapsed', readings')
    ensures slept ==> SleptWell(sleeps', least, timeout, elapsed' < timeout)
    ensures slept ==> OneMore(sleeps, sleeps', interval, elapsed' < timeout)
    ensures !slept ==> sleeps' == sleeps && (elapsed' >= timeout || interval <= 0.0)
  {
    readings', sleeps' := readings + 1, sleeps;
    elapsed' := elapsed + spent(readings');
    var sleepFor := Min(interval, timeout - elapsed');
    slept := sleepFor > 0.0;
    if slept {
      OneMoreSleep(sleeps, least, timeout, interval, timeout - elapsed');
      sleeps' := sleeps + [sleepFor];
      readings' := readings' + 1;
      elapsed' := elapsed' + sleepFor + spent(readings');
    }
  }

  // ---- the loop ---------------------------------------------------------------------------------

  /** The result is that of the last answer, and all before it were pending. */
  predicate IsOutcome(result: Result, answers: seq<Answer>, calls: nat) {
    && calls <= |answers| && (forall i :: 0 <= i < calls - 1 ==> answers[i] == Pending)
    && match result
       case Issued(certificate) => calls > 0 && certificate != "" && answers[calls - 1] == Valid(certificate)
       case NoCertificate => calls > 0 && answers[calls - 1] == Valid("")
       case RequestFailed => calls > 0 && answers[calls - 1] == Raises
       case TimedOut => calls > 0 ==> answers[calls - 1] == Pending
       case Unfinished => calls > 0 ==> answers[calls - 1] == Pending
  }

  /** `answers` are what the broker says, call by call; `sleeps` and `calls` record what was done,
      `elapsed` how long it has taken since the first reading.  Sleeps never sum past the timeout;
      each is the interval the backoff has reached, but for a last one the deadline cuts short. */
  method Poll(initial: real, factor: real, cap: real, timeout: real, spent: nat -> real, answers: seq<Answer>)
    returns (result: Result, sleeps: seq<real>, calls: nat, elapsed: real, readings: nat)
    requires PassesForward(spent)
    ensures FollowsBackoff(sleeps, initial, factor, cap, false)
    ensures SleptWell(sleeps, Least(initial, factor, cap), timeout, false) && |sleeps| <= calls <= |sleeps| + 1
    ensures Steady(initial, factor, cap) && calls > 0 ==> Times(calls - 1, initial) <= timeout
    ensures OnTime(spent, sleeps, elapsed, readings)
    ensures result == TimedOut ==> elapsed >= timeout || Interval(|sleeps|, initial, factor, cap) <= 0.0
    ensures IsOutcome(result, answers, calls) && (result == Unfinished ==> calls == |answers|)
  {
    result, sleeps, calls, elapsed, readings := Unfinished, [], 0, 0.0, 0;
    ghost var least := Least(initial, factor, cap);
    var interval := initial;
    while calls < |answers|
      invariant calls == |sleeps| && IsOutcome(Unfinished, answers, calls)
      invariant OnTime(spent, sleeps, elapsed, readings) && SleptWell(sleeps, least, timeout, elapsed < timeout)
      invariant interval == Interval(calls, initial, factor, cap)
      invariant FollowsBackoff(sleeps, initial, factor, cap, elapsed < timeout)
    {
      readings := readings + 1;
      elapsed := elapsed + spent(readings);
      if elapsed >= timeout { return TimedOut, sleeps, calls, elapsed, readings; }
      var answer := answers[calls];
      calls := calls + 1;
      if answer != Pending { return ResultOf(answer), sleeps, calls, elapsed, readings; }
      IntervalIsBounded(|sleeps|, initial, factor, cap);
      var slept, longer;
      slept, longer, elapsed, readings := SleepOnce(least, timeout, spent, sleeps, interval, elapsed, readings);
      if !slept { return TimedOut, sleeps, calls, elapsed, readings; }
      BackoffGoesOn(sleeps, longer, initial, factor, cap, elapsed < timeout);
      sleeps := longer;
      interval := NextInterval(interval, factor, cap);
    }
  }

  function ResultOf(answer: Answer): Result {
    match answer
    case Valid(certificate) => if certificate == "" then NoCertificate else Issued(certificate)
    case Raises => RequestFailed
    case Pending => Unfinished
  }

  /** A lower bound for the intervals, if the backoff has one; else 0. */
  function Least(initial: real, factor: real, cap: real): real { if Steady(initial, factor, cap) then initial else 0.0 }

  /** `_poll_until_issued`: with the usual settings the loop makes at most `1 + timeout / initial` calls,
      ends by itself, and a timeout is real. */
  method PollUntilIssued(initial: real, factor: real, cap: real, timeout: real,
                         spent: nat -> real, answers: seq<Answer>)
    returns (result: Result, sleeps: seq<real>, calls: nat, elapsed: real, readings: nat)
    requires PassesForward(spent)
    ensures Sum(sleeps) <= Max(timeout, 0.0) && FollowsBackoff(sleeps, initial, factor, cap, false)
    ensures forall i :: 0 <= i < |sleeps| ==> 0.0 < sleeps[i] <= Max(initial, cap)
    ensures elapsed == Sum(sleeps) + Passed(spent, readings)
    ensures IsOutcome(result, answers, calls) && (result == Unfinished ==> calls == |answers|)
    ensures Steady(initial, factor, cap) ==>
              && (calls > 0 ==> calls as real <= 1.0 + timeout / initial)
              && (result == TimedOut ==> elapsed >= timeout)
              && (|answers| > 0 && |answers| as real > 1.0 + timeout / initial ==> result != Unfinished)
  {
    result, sleeps, calls, elapsed, readings := Poll(initial, factor, cap, timeout, spent, answers);
    forall i | 0 <= i < |sleeps| ensures 0.0 < sleeps[i] <= Max(initial, cap) {
      IntervalIsBounded(i, initial, factor, cap);
    }
    if Steady(initial, factor, cap) {
      IntervalIsBounded(|sleeps|, initial, factor, cap);
      if calls > 0 { CallsAreBounded(initial, timeout, calls); }
    }
  }

  /** At most `1 + timeout / initial` calls. */
  lemma CallsAreBounded(initial: real, timeout: real, calls: nat)
    requires initial > 0.0 && calls > 0 && Times(calls - 1, initial) <= timeout
    ensures calls as real <= 1.0 + timeout / initial
  {
    TimesIsProduct(calls - 1, initial);
    Divide((calls - 1) as real, initial, timeout);
  }

  lemma Divide(n: real, x: real, y: real)
    requires x > 0.0 && n * x <= y
    ensures n <= y / x
  {
    if y / x < n {
      Scale(y / x, n, x);
      assert false;
    }
  }

  lemma Scale(a: real, b: real, x: real)
    requires a < b && x > 0.0
    ensures a * x < b * x
  {
    assert (b - a) * x > 0.0;
  }
}
