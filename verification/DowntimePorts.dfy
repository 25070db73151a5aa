/**
 `_acquire_ports_during_downtime` (updater/server.py): waits for the service to go down, then
 takes ports 443 and 80, against a moving clock.

 Time is in milliseconds.  `World` says what passes between two readings of the clock and how
 the service and the ports answer; each successful bind yields a socket of its own.
 */
module DowntimePorts {
  import opened Options

  const MAX_LIFETIME := 3600_000
  const BIND_WAIT := 60_000
  const DOWNTIME_WAIT := 120_000
  const BIND_RETRY := 20

  datatype Socket = Socket(port: nat, id: nat)

  datatype World = World(spent: nat -> nat, ready: nat -> bool, bindable: nat -> bool)

  datatype Act = Probe(ready: bool) | TryBind(port: nat, got: Option<Socket>) | Close(socket: Socket)

  /** The program's own actions, in order. */
  type Trace = seq<Act>

  /** Some action so far is of this kind. */
  predicate Any(trace: Trace, kind: Act -> bool) {
    trace != [] && (kind(trace[|trace| - 1]) || Any(trace[..|trace| - 1], kind))
  }

  function Downs(): Act -> bool { (act: Act) => act == Probe(false) }

  function Attempts(port: nat): Act -> bool { (act: Act) => act.TryBind? && act.port == port }

  function Binds(port: nat): Act -> bool { (act: Act) => act.TryBind? && act.port == port && act.got.Some? }

  /** A bind that settles the matter: of 443, or without a certificate of 80. */
  function Settles(tls: bool): Act -> bool { (act: Act) => act.TryBind? && act.got.Some? && (act.port == 443 || !tls) }

  predicate SeenDown(trace: Trace) { Any(trace, Downs()) }

  /** No bind is tried before a probe has found the service down. */
  predicate BindsOnlyAfterDown(trace: Trace) {
    trace == []
    || (BindsOnlyAfterDown(trace[..|trace| - 1]) && (trace[|trace| - 1].TryBind? ==> SeenDown(trace[..|trace| - 1])))
  }

  function BoundIn(trace: Trace): set<Socket> {
    if trace == [] then {} else BoundIn(trace[..|trace| - 1]) + Gained(trace[|trace| - 1])
  }

  function Gained(act: Act): set<Socket> { if act.TryBind? then Held(act.got) else {} }

  function ClosedIn(trace: Trace): set<Socket> {
    if trace == [] then {} else ClosedIn(trace[..|trace| - 1]) + Lost(trace[|trace| - 1])
  }

  function Lost(act: Act): set<Socket> { if act.Close? then {act.socket} else {} }

  function Held(sock: Option<Socket>): set<Socket> { if sock.Some? then {sock.value} else {} }

  function Probes(trace: Trace): nat {
    if trace == [] then 0 else Probes(trace[..|trace| - 1]) + if trace[|trace| - 1].Probe? then 1 else 0
  }

  function Tries(trace: Trace): nat {
    if trace == [] then 0 else Tries(trace[..|trace| - 1]) + if trace[|trace| - 1].TryBind? then 1 else 0
  }

  /** Everything up to the last probe, and what has been done since. */
  function Before(trace: Trace): Trace {
    if trace == [] || trace[|trace| - 1].Probe? then trace else Before(trace[..|trace| - 1])
  }

  function Turn(trace: Trace): Trace {
    if trace == [] || trace[|trace| - 1].Probe? then [] else Turn(trace[..|trace| - 1]) + [trace[|trace| - 1]]
  }

  /** Since the last probe exactly the ports not held yet have been tried, 443 only with a certificate. */
  predicate Tried(trace: Trace, tls: bool) {
    && (Any(Turn(trace), Attempts(443)) <==> tls && !Any(Before(trace), Binds(443)))
    && (Any(Turn(trace), Attempts(80)) <==> !Any(Before(trace), Binds(80)))
  }

  /** What the outside answers, and that no turn after the downtime ends without its attempts. */
  predicate Fits(w: World, tls: bool, before: Trace, act: Act) {
    match act
    case Probe(ready) => ready == w.ready(Probes(before)) && (SeenDown(before) ==> Tried(before, tls))
    case TryBind(port, got) =>
      got == if w.bindable(Tries(before)) then Some(Socket(port, Tries(before))) else None
    case Close(_) => true
  }

  predicate Told(w: World, tls: bool, trace: Trace) {
    trace == [] || (Told(w, tls, trace[..|trace| - 1]) && Fits(w, tls, trace[..|trace| - 1], trace[|trace| - 1]))
  }

  // ---- the clock ------------------------------------------------------------------------------

  /** The reading at the top of turn `k`, and the one after its probe. */
  function TurnStart(w: World, start: nat, k: nat): nat
    decreases k, 0
  {
    if k == 0 then start else Checked(w, start, k - 1) + BIND_RETRY + w.spent(2 * k - 1)
  }

  function Checked(w: World, start: nat, k: nat): nat
    decreases k, 1
  {
    TurnStart(w, start, k) + w.spent(2 * k)
  }

  /** The first of `n` turns whose probe found the service down. */
  function FirstDown(w: World, n: nat): (d: Option<nat>)
    ensures d.Some? ==> d.value < n
  {
    if n == 0 then None
    else if FirstDown(w, n - 1).Some? then FirstDown(w, n - 1)
    else if w.ready(n - 1) then None else Some(n - 1)
  }

  /** After the probe of turn `k` there is nothing left to wait for: the service is back, or was down
      too long ago, or has not gone down in time. */
  predicate GivesUp(w: World, start: nat, k: nat) {
    match FirstDown(w, k)
    case Some(d) => w.ready(k) || Checked(w, start, k) > Checked(w, start, d) + BIND_WAIT
    case None => w.ready(k) && Checked(w, start, k) > start + DOWNTIME_WAIT
  }

  predicate Begins(w: World, start: nat, k: nat) { TurnStart(w, start, k) < start + MAX_LIFETIME }

  /** The first `n` turns were begun within the lifetime, and none of them gave up. */
  predicate WaitedOn(w: World, start: nat, n: nat) {
    n == 0 || (WaitedOn(w, start, n - 1) && Begins(w, start, n - 1) && !GivesUp(w, start, n - 1))
  }

  /** How it ends.  In the very turn of a bind that settles the matter, with everything bound and the
      other port tried; else with nothing, all closed, in the first turn that gives up; else with
      whatever is bound, once the lifetime is over. */
  predicate Ends(w: World, tls: bool, start: nat, trace: Trace, https: Option<Socket>, http: Option<Socket>) {
    var n := Probes(trace);
    if Any(trace, Settles(tls)) then
      && !Any(Before(trace), Settles(tls)) && Tried(trace, tls) && SeenDown(trace)
      && WaitedOn(w, start, n) && Begins(w, start, n)
      && ClosedIn(trace) == {} && BoundIn(trace) == Held(https) + Held(http)
    else if n > 0 && GivesUp(w, start, n - 1) then
      && WaitedOn(w, start, n - 1) && Begins(w, start, n - 1)
      && https == None && http == None && ClosedIn(trace) == BoundIn(trace)
    else
      && WaitedOn(w, start, n) && !Begins(w, start, n)
      && ClosedIn(trace) == {} && BoundIn(trace) == Held(https) + Held(http)
  }

  // ---- one action more ------------------------------------------------------------------------

  lemma OneMoreAct(w: World, tls: bool, trace: Trace, act: Act)
    ensures BindsOnlyAfterDown(trace + [act]) <==> BindsOnlyAfterDown(trace) && (act.TryBind? ==> SeenDown(trace))
    ensures BoundIn(trace + [act]) == BoundIn(trace) + Gained(act)
    ensures ClosedIn(trace + [act]) == ClosedIn(trace) + Lost(act)
    ensures Probes(trace + [act]) == Probes(trace) + if act.Probe? then 1 else 0
    ensures Tries(trace + [act]) == Tries(trace) + if act.TryBind? then 1 else 0
    ensures Told(w, tls, trace + [act]) <==> Told(w, tls, trace) && Fits(w, tls, trace, act)
  {
    assert (trace + [act])[..|trace|] == trace;
  }

  lemma OneMoreInTurn(trace: Trace, act: Act)
    ensures Before(trace + [act]) == if act.Probe? then trace + [act] else Before(trace)
    ensures Turn(trace + [act]) == if act.Probe? then [] else Turn(trace) + [act]
  {
    assert (trace + [act])[..|trace|] == trace;
  }

  lemma AnyOneMore(trace: Trace, act: Act, kind: Act -> bool)
    ensures Any(trace + [act], kind) <==> Any(trace, kind) || kind(act)
  {
    assert (trace + [act])[..|trace|] == trace;
  }

  /** Sockets are numbered by the bind attempts. */
  predicate Older(sock: Option<Socket>, port: nat, tries: nat) {
    sock.Some? ==> sock.value.port == port && sock.value.id < tries
  }

  /** Everything about the trace while the program holds what it has bound. */
  predicate Going(w: World, tls: bool, trace: Trace, https: Option<Socket>, http: Option<Socket>) {
    && BindsOnlyAfterDown(trace) && Told(w, tls, trace)
    && ClosedIn(trace) == {} && BoundIn(trace) == Held(https) + Held(http)
    && Older(https, 443, Tries(trace)) && Older(http, 80, Tries(trace)) && (https.Some? ==> tls)
    && (Any(trace, Binds(443)) <==> https.Some?) && (Any(trace, Binds(80)) <==> http.Some?)
    && (Any(trace, Settles(tls)) <==> https.Some? || (!tls && http.Some?))
  }

  /** Every socket ever bound is either returned or closed, and not both. */
  predicate Accounted(trace: Trace, https: Option<Socket>, http: Option<Socket>) {
    && BindsOnlyAfterDown(trace)
    && BoundIn(trace) == Held(https) + Held(http) + ClosedIn(trace)
    && Held(https) !! Held(http) && (Held(https) + Held(http)) !! ClosedIn(trace)
  }

  lemma ProbingGoesOn(w: World, tls: bool, trace: Trace, https: Option<Socket>, http: Option<Socket>, ready: bool)
    requires Going(w, tls, trace, https, http) && Fits(w, tls, trace, Probe(ready))
    ensures Going(w, tls, trace + [Probe(ready)], https, http)
    ensures SeenDown(trace + [Probe(ready)]) <==> SeenDown(trace) || !ready
  {
    var act := Probe(ready);
    OneMoreAct(w, tls, trace, act);
    AnyOneMore(trace, act, Binds(443));
    AnyOneMore(trace, act, Binds(80));
    AnyOneMore(trace, act, Settles(tls));
    AnyOneMore(trace, act, Downs());
  }

  lemma BindingGoesOn(w: World, tls: bool, trace: Trace, https: Option<Socket>, http: Option<Socket>, port: nat,
                      got: Option<Socket>)
    requires Going(w, tls, trace, https, http) && SeenDown(trace) && Fits(w, tls, trace, TryBind(port, got))
    requires (port == 443 && https == None && tls) || (port == 80 && http == None)
    ensures SeenDown(trace + [TryBind(port, got)])
    ensures port == 443 ==> Going(w, tls, trace + [TryBind(port, got)], got, http)
    ensures port == 80 ==> Going(w, tls, trace + [TryBind(port, got)], https, got)
  {
    var act := TryBind(port, got);
    OneMoreAct(w, tls, trace, act);
    AnyOneMore(trace, act, Binds(443));
    AnyOneMore(trace, act, Binds(80));
    AnyOneMore(trace, act, Settles(tls));
    AnyOneMore(trace, act, Downs());
  }

  lemma ClosingKeeps(w: World, tls: bool, trace: Trace, socket: Socket)
    requires Told(w, tls, trace) && BindsOnlyAfterDown(trace)
    ensures var longer := trace + [Close(socket)];
            && Told(w, tls, longer) && BindsOnlyAfterDown(longer) && Probes(longer) == Probes(trace)
            && BoundIn(longer) == BoundIn(trace) && ClosedIn(longer) == ClosedIn(trace) + {socket}
            && (Any(longer, Settles(tls)) <==> Any(trace, Settles(tls)))
  {
    OneMoreAct(w, tls, trace, Close(socket));
    AnyOneMore(trace, Close(socket), Settles(tls));
  }

  // ---- one turn -------------------------------------------------------------------------------

  /** Which ports have been tried since the last probe. */
  predicate TriedNow(trace: Trace, before: Trace, https: bool, http: bool) {
    && Before(trace) == before
    && (Any(Turn(trace), Attempts(443)) <==> https) && (Any(Turn(trace), Attempts(80)) <==> http)
  }

  lemma OneMoreTried(trace: Trace, before: Trace, https: bool, http: bool, port: nat, got: Option<Socket>)
    requires TriedNow(trace, before, https, http) && (port == 443 || port == 80)
    ensures TriedNow(trace + [TryBind(port, got)], before, https || port == 443, http || port == 80)
  {
    OneMoreInTurn(trace, TryBind(port, got));
    AnyOneMore(Turn(trace), TryBind(port, got), Attempts(443));
    AnyOneMore(Turn(trace), TryBind(port, got), Attempts(80));
  }

  /** `_try_bind`, after the service was seen down: of a port that is not held. */
  method TryBindPort(w: World, tls: bool, port: nat, tries: nat, ghost https: Option<Socket>,
                     ghost http: Option<Socket>, ghost trace: Trace)
    returns (got: Option<Socket>, ghost longer: Trace)
    requires SeenDown(trace) && Going(w, tls, trace, https, http) && tries == Tries(trace)
    requires (port == 443 && https == None && tls) || (port == 80 && http == None)
    ensures longer == trace + [TryBind(port, got)] && SeenDown(longer)
    ensures Tries(longer) == tries + 1 && Probes(longer) == Probes(trace)
    ensures port == 443 ==> Going(w, tls, longer, got, http)
    ensures port == 80 ==> Going(w, tls, longer, https, got)
  {
    got := if w.bindable(tries) then Some(Socket(port, tries)) else None;
    BindingGoesOn(w, tls, trace, https, http, port, got);
    OneMoreAct(w, tls, trace, TryBind(port, got));
    longer := trace + [TryBind(port, got)];
  }

  /** Tries for whatever is not held yet; 443 only with a certificate. */
  method TryPorts(w: World, tls: bool, https0: Option<Socket>, http0: Option<Socket>, tries0: nat, ghost trace: Trace)
    returns (https: Option<Socket>, http: Option<Socket>, tries: nat, ghost longer: Trace)
    requires SeenDown(trace) && Going(w, tls, trace, https0, http0) && tries0 == Tries(trace)
    requires TriedNow(trace, trace, false, false)
    ensures SeenDown(longer) && Going(w, tls, longer, https, http) && tries == Tries(longer)
    ensures (https0.Some? ==> https == https0) && (http0.Some? ==> http == http0)
    ensures Probes(longer) == Probes(trace) && TriedNow(longer, trace, tls && https0 == None, http0 == None)
  {
    https, http, tries, longer := https0, http0, tries0, trace;
    if https == None && tls {
      ghost var shorter := longer;
      https, longer := TryBindPort(w, tls, 443, tries, https, http, longer);
      OneMoreTried(shorter, trace, false, false, 443, https);
      tries := tries + 1;
    }
    if http == None {
      ghost var shorter := longer;
      http, longer := TryBindPort(w, tls, 80, tries, https, http, longer);
      OneMoreTried(shorter, trace, tls && https0 == None, false, 80, http);
      tries := tries + 1;
    }
  }

  /** `_close`. */
  method CloseBoth(https: Option<Socket>, http: Option<Socket>, ghost w: World, ghost tls: bool, ghost trace: Trace)
    returns (ghost longer: Trace)
    requires Going(w, tls, trace, https, http)
    ensures Accounted(longer, None, None) && Told(w, tls, longer) && Probes(longer) == Probes(trace)
    ensures ClosedIn(longer) == BoundIn(longer) && (Any(longer, Settles(tls)) <==> Any(trace, Settles(tls)))
  {
    longer := trace;
    if https.Some? {
      ClosingKeeps(w, tls, longer, https.value);
      longer := longer + [Close(https.value)];
    }
    if http.Some? {
      ClosingKeeps(w, tls, longer, http.value);
      longer := longer + [Close(http.value)];
    }
  }

  /** `_compute_space_ready`. */
  method ProbeService(w: World, tls: bool, probes: nat, ghost https: Option<Socket>, ghost http: Option<Socket>,
                      ghost trace: Trace)
    returns (ready: bool, ghost longer: Trace)
    requires Going(w, tls, trace, https, http) && probes == Probes(trace)
    requires SeenDown(trace) ==> Tried(trace, tls)
    ensures ready == w.ready(probes) && Going(w, tls, longer, https, http)
    ensures Probes(longer) == probes + 1 && Tries(longer) == Tries(trace)
    ensures Turn(longer) == [] && Before(longer) == longer
    ensures SeenDown(longer) <==> SeenDown(trace) || !ready
  {
    ready := w.ready(probes);
    ProbingGoesOn(w, tls, trace, https, http, ready);
    OneMoreAct(w, tls, trace, Probe(ready));
    OneMoreInTurn(trace, Probe(ready));
    longer := trace + [Probe(ready)];
  }

  // ---- the loop -------------------------------------------------------------------------------

  /** The port that settles the matter is not held. */
  predicate Unsettled(tls: bool, https: Option<Socket>, http: Option<Socket>) {
    https == None && (tls || http == None)
  }

  function Deadline(w: World, start: nat, down: Option<nat>): Option<nat> {
    if down == None then None else Some(Checked(w, start, down.value) + BIND_WAIT)
  }

  /** The variables of the loop, at its top. */
  predicate AtTop(w: World, tls: bool, start: nat, trace: Trace, https: Option<Socket>, http: Option<Socket>,
                  probes: nat, now: nat, bindDeadline: Option<nat>) {
    && Going(w, tls, trace, https, http) && Unsettled(tls, https, http)
    && Turn(trace) == [] && Before(trace) == trace
    && probes == Probes(trace) && now == TurnStart(w, start, probes) && WaitedOn(w, start, probes)
    && bindDeadline == Deadline(w, start, FirstDown(w, probes)) && (bindDeadline.Some? <==> SeenDown(trace))
  }

  lemma EndsSettled(w: World, tls: bool, start: nat, before: Trace, https0: Option<Socket>, http0: Option<Socket>,
                    probes: nat, now: nat, bindDeadline: Option<nat>, trace: Trace, https: Option<Socket>,
                    http: Option<Socket>)
    requires AtTop(w, tls, start, before, https0, http0, probes, now, bindDeadline) && now < start + MAX_LIFETIME
    requires Going(w, tls, trace, https, http) && !Unsettled(tls, https, http)
    requires SeenDown(trace) && Probes(trace) == probes
    requires TriedNow(trace, before, tls && https0 == None, http0 == None)
    ensures IsEnd(w, tls, start, trace, https, http)
  {
  }

  /** A turn that goes on to the next. */
  lemma NextTop(w: World, tls: bool, start: nat, trace: Trace, https: Option<Socket>, http: Option<Socket>, k: nat)
    requires Probed(w, tls, start, trace, https, http, k) && !GivesUp(w, start, k)
    ensures AtTop(w, tls, start, trace, https, http, k + 1, Checked(w, start, k) + BIND_RETRY + w.spent(2 * k + 1),
                  Deadline(w, start, FirstDown(w, k + 1)))
  {
  }

  /** Turn `k` has tried what it had to, and probed. */
  predicate Probed(w: World, tls: bool, start: nat, trace: Trace, https: Option<Socket>, http: Option<Socket>, k: nat) {
    && Going(w, tls, trace, https, http) && Unsettled(tls, https, http)
    && Turn(trace) == [] && Before(trace) == trace && Probes(trace) == k + 1
    && WaitedOn(w, start, k) && Begins(w, start, k)
    && (SeenDown(trace) <==> FirstDown(w, k + 1).Some?)
  }

  /** The first half of a turn: the ports, once the service was seen down, and the probe. */
  method BindAndProbe(w: World, tls: bool, start: nat, https0: Option<Socket>, http0: Option<Socket>, probes: nat,
                      tries0: nat, now: nat, bindDeadline: Option<nat>, ghost before: Trace)
    returns (settled: bool, https: Option<Socket>, http: Option<Socket>, tries: nat, ready: bool, ghost trace: Trace)
    requires AtTop(w, tls, start, before, https0, http0, probes, now, bindDeadline) && now < start + MAX_LIFETIME
    requires tries0 == Tries(before)
    ensures settled ==> IsEnd(w, tls, start, trace, https, http)
    ensures !settled ==> Probed(w, tls, start, trace, https, http, probes) && ready == w.ready(probes)
                         && tries == Tries(trace)
  {
    https, http, tries, ready, trace := https0, http0, tries0, false, before;
    if bindDeadline.Some? {
      https, http, tries, trace := TryPorts(w, tls, https, http, tries, trace);
      if https.Some? || (!tls && http.Some?) {
        EndsSettled(w, tls, start, before, https0, http0, probes, now, bindDeadline, trace, https, http);
        return true, https, http, tries, ready, trace;
      }
    }
    ready, trace := ProbeService(w, tls, probes, https, http, trace);
    settled := false;
  }

  /** Giving up: what is held is closed. */
  method GiveUp(https: Option<Socket>, http: Option<Socket>, ghost w: World, ghost tls: bool, ghost start: nat,
                ghost k: nat, ghost trace: Trace)
    returns (ghost longer: Trace)
    requires Probed(w, tls, start, trace, https, http, k) && GivesUp(w, start, k)
    ensures IsEnd(w, tls, start, longer, None, None)
  {
    longer := CloseBoth(https, http, w, tls, trace);
  }

  lemma NothingHeldBeforeDown(w: World, tls: bool, trace: Trace, https: Option<Socket>, http: Option<Socket>)
    requires Going(w, tls, trace, https, http) && !SeenDown(trace)
    ensures https == None && http == None
  {
    NoBindsBeforeDown(trace, 443);
    NoBindsBeforeDown(trace, 80);
  }

  lemma {:induction false} NoBindsBeforeDown(trace: Trace, port: nat)
    requires BindsOnlyAfterDown(trace) && !SeenDown(trace)
    ensures !Any(trace, Binds(port))
  {
    if trace != [] {
      NoBindsBeforeDown(trace[..|trace| - 1], port);
    }
  }

  /** What the program's tests of the clock and the service amount to. */
  lemma GivesUpMeans(w: World, start: nat, k: nat, bindDeadline: Option<nat>)
    requires bindDeadline == Deadline(w, start, FirstDown(w, k))
    ensures GivesUp(w, start, k) <==>
            if bindDeadline.Some? then w.ready(k) || Checked(w, start, k) > bindDeadline.value
            else w.ready(k) && Checked(w, start, k) - start > DOWNTIME_WAIT
    ensures Deadline(w, start, FirstDown(w, k + 1)) ==
            if bindDeadline.Some? then bindDeadline
            else if w.ready(k) then None else Some(Checked(w, start, k) + BIND_WAIT)
  {
  }

  /** How many turns there can have been: `waits` before the downtime and `turns` after it. */
  predicate Paced(start: nat, now: nat, bindDeadline: Option<nat>, waits: nat, turns: nat) {
    && now >= start + (waits + turns) * BIND_RETRY && (waits + turns) * BIND_RETRY <= MAX_LIFETIME + BIND_RETRY
    && waits * BIND_RETRY <= DOWNTIME_WAIT + (if bindDeadline.Some? then 2 else 1) * BIND_RETRY
    && (bindDeadline == None ==> turns == 0)
    && (bindDeadline.Some? ==> now + BIND_WAIT >= bindDeadline.value + turns * BIND_RETRY)
    && turns * BIND_RETRY <= BIND_WAIT + BIND_RETRY
  }

  predicate InTime(waits: nat, turns: nat) {
    && waits * BIND_RETRY <= DOWNTIME_WAIT + 2 * BIND_RETRY
    && turns * BIND_RETRY <= BIND_WAIT + 2 * BIND_RETRY
    && (waits + turns) * BIND_RETRY <= MAX_LIFETIME + BIND_RETRY
  }

  lemma OneMoreTurn(start: nat, now: nat, bindDeadline: Option<nat>, waits: nat, turns: nat)
    requires Paced(start, now, bindDeadline, waits, turns) && now < start + MAX_LIFETIME
    ensures if bindDeadline.Some? then InTime(waits, turns + 1) else InTime(waits + 1, turns)
  {
  }

  /** A turn begun at `now` and checked at `checked` that goes on. */
  lemma PaceIsKept(start: nat, now: nat, checked: nat, later: nat, bindDeadline: Option<nat>, waits: nat, turns: nat)
    requires Paced(start, now, bindDeadline, waits, turns) && now < start + MAX_LIFETIME
    requires now <= checked && checked + BIND_RETRY <= later
    ensures bindDeadline.Some? && checked <= bindDeadline.value ==> Paced(start, later, bindDeadline, waits, turns + 1)
    ensures bindDeadline == None && checked - start <= DOWNTIME_WAIT ==> Paced(start, later, None, waits + 1, turns)
    ensures bindDeadline == None ==> Paced(start, later, Some(checked + BIND_WAIT), waits + 1, turns)
  {
  }

  /** Nothing was ever tried: there is nothing to close. */
  lemma EndsWithoutDowntime(w: World, tls: bool, start: nat, trace: Trace, https: Option<Socket>, http: Option<Socket>,
                            k: nat)
    requires Probed(w, tls, start, trace, https, http, k) && GivesUp(w, start, k) && !SeenDown(trace)
    ensures https == None && http == None
    ensures IsEnd(w, tls, start, trace, https, http)
  {
    NothingHeldBeforeDown(w, tls, trace, https, http);
  }

  /** The lifetime is over: whatever is held is handed over. */
  lemma EndsWithTheLifetime(w: World, tls: bool, start: nat, trace: Trace, https: Option<Socket>, http: Option<Socket>,
                            probes: nat, now: nat, bindDeadline: Option<nat>)
    requires AtTop(w, tls, start, trace, https, http, probes, now, bindDeadline) && now >= start + MAX_LIFETIME
    ensures IsEnd(w, tls, start, trace, https, http)
  {
    if probes > 0 { assert !GivesUp(w, start, probes - 1); }
  }

  /** The second half of a turn: what the probe and the clock say. */
  method Decide(w: World, tls: bool, start: nat, https0: Option<Socket>, http0: Option<Socket>, k: nat, ready: bool,
                now: nat, bindDeadline0: Option<nat>, ghost before: Trace)
    returns (done: bool, https: Option<Socket>, http: Option<Socket>, bindDeadline: Option<nat>, ghost trace: Trace)
    requires Probed(w, tls, start, before, https0, http0, k) && ready == w.ready(k) && now == Checked(w, start, k)
    requires bindDeadline0 == Deadline(w, start, FirstDown(w, k))
    ensures done ==> IsEnd(w, tls, start, trace, https, http)
    ensures !done ==> trace == before && https == https0 && http == http0 && !GivesUp(w, start, k)
                      && bindDeadline == Deadline(w, start, FirstDown(w, k + 1))
    ensures !done && bindDeadline0.Some? ==> bindDeadline == bindDeadline0 && now <= bindDeadline.value
    ensures !done && bindDeadline0 == None ==>
              (bindDeadline == None && now - start <= DOWNTIME_WAIT) || bindDeadline == Some(now + BIND_WAIT)
  {
    GivesUpMeans(w, start, k, bindDeadline0);
    https, http, bindDeadline, trace := https0, http0, bindDeadline0, before;
    var downtimeSeen := bindDeadline.Some?;
    if !ready && !downtimeSeen {
      bindDeadline := Some(now + BIND_WAIT);
    } else if downtimeSeen && ready {
      trace := GiveUp(https, http, w, tls, start, k, trace);
      return true, None, None, bindDeadline, trace;
    } else if bindDeadline.Some? && now > bindDeadline.value {
      trace := GiveUp(https, http, w, tls, start, k, trace);
      return true, None, None, bindDeadline, trace;
    } else if !downtimeSeen && now - start > DOWNTIME_WAIT {
      EndsWithoutDowntime(w, tls, start, trace, https, http, k);
      return true, https, http, bindDeadline, trace;
    }
    done := false;
  }

  /** The state with which the loop begins. */
  lemma FirstTop(w: World, tls: bool, start: nat)
    ensures AtTop(w, tls, start, [], None, None, 0, start, None) && Paced(start, start, None, 0, 0)
  {
  }

  /** One turn of the loop; `checked` is its reading of the clock after the probe. */
  method OneTurn(w: World, tls: bool, start: nat, https0: Option<Socket>, http0: Option<Socket>, probes: nat,
                 tries0: nat, now0: nat, bindDeadline0: Option<nat>, ghost before: Trace)
    returns (done: bool, https: Option<Socket>, http: Option<Socket>, tries: nat, now: nat, bindDeadline: Option<nat>,
             ghost trace: Trace, ghost checked: nat)
    requires AtTop(w, tls, start, before, https0, http0, probes, now0, bindDeadline0) && now0 < start + MAX_LIFETIME
    requires tries0 == Tries(before)
    ensures done ==> IsEnd(w, tls, start, trace, https, http)
    ensures !done ==> AtTop(w, tls, start, trace, https, http, probes + 1, now, bindDeadline) && tries == Tries(trace)
    ensures !done ==> now0 <= checked && checked + BIND_RETRY <= now
    ensures !done && bindDeadline0.Some? ==> bindDeadline == bindDeadline0 && checked <= bindDeadline.value
    ensures !done && bindDeadline0 == None ==>
              (bindDeadline == None && checked - start <= DOWNTIME_WAIT) || bindDeadline == Some(checked + BIND_WAIT)
  {
    var ready;
    done, https, http, tries, ready, trace :=
      BindAndProbe(w, tls, start, https0, http0, probes, tries0, now0, bindDeadline0, before);
    now, bindDeadline, checked := now0 + w.spent(2 * probes), bindDeadline0, 0;
    if done { return; }
    checked := now;
    done, https, http, bindDeadline, trace :=
      Decide(w, tls, start, https, http, probes, ready, now, bindDeadline0, trace);
    if done { return; }
    NextTop(w, tls, start, trace, https, http, probes);
    now := now + BIND_RETRY + w.spent(2 * probes + 1);
  }

  /** The outcome and the trace it leaves behind. */
  predicate IsEnd(w: World, tls: bool, start: nat, trace: Trace, https: Option<Socket>, http: Option<Socket>) {
    && Accounted(trace, https, http) && Told(w, tls, trace) && Ends(w, tls, start, trace, https, http)
    && (https.Some? ==> tls && https.value.port == 443) && (http.Some? ==> http.value.port == 80)
  }

  method AcquirePortsDuringDowntime(w: World, tls: bool, start: nat)
    returns (https: Option<Socket>, http: Option<Socket>, ghost trace: Trace, ghost waits: nat, ghost turns: nat)
    ensures IsEnd(w, tls, start, trace, https, http) && InTime(waits, turns)
  {
    https, http, trace, waits, turns := None, None, [], 0, 0;
    var now, probes, tries := start, 0, 0;
    var deadline := start + MAX_LIFETIME;
    var bindDeadline: Option<nat> := None;
    FirstTop(w, tls, start);
    while now < deadline
      invariant AtTop(w, tls, start, trace, https, http, probes, now, bindDeadline) && tries == Tries(trace)
      invariant Paced(start, now, bindDeadline, waits, turns)
      decreases deadline - now
    {
      ghost var before, top, checked := bindDeadline, now, 0;
      OneMoreTurn(start, now, bindDeadline, waits, turns);
      var done;
      done, https, http, tries, now, bindDeadline, trace, checked :=
        OneTurn(w, tls, start, https, http, probes, tries, now, bindDeadline, trace);
      ghost var waits0, turns0 := waits, turns;
      if before.Some? { turns := turns + 1; } else { waits := waits + 1; }
      if done { return; }
      PaceIsKept(start, top, checked, now, before, waits0, turns0);
      probes := probes + 1;
    }
    EndsWithTheLifetime(w, tls, start, trace, https, http, probes, now, bindDeadline);
  }
}
