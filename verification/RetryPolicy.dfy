/** The clock-only retry policy of the Wi-Fi connection. */
module RetryPolicy {

  const MAX_TIME: nat := 0xFFFF_FFFF_FFFF_FFFF
  const ATTEMPT_MS: nat := 20000
  const RECOVERY_MS: nat := 45000
  const STABLE_MS: nat := 30000
  const AUTH_MS: nat := 300000

  type Time = t: nat | t <= MAX_TIME

  datatype Retry = Retry(
    generation: nat,
    enabled: bool,
    paused: bool,
    online: bool,
    inFlight: bool,
    announced: bool,
    backoff: nat,
    authFailures: nat,
    attempts: nat,
    outageSince: Time,
    stableSince: Time,
    nextAttempt: Time,
    deadline: Time)

  const STOPPED: Retry := Retry(0, false, false, false, false, false, 0, 0, 0, 0, 0, 0, 0)

  datatype Actions = Actions(connect: bool, abort: bool, openAp: bool)

  const NOTHING: Actions := Actions(false, false, false)

  // ---------- Transitions ----------

  /** Time does not wrap: it stops at its maximum. */
  function After(now: Time, delay: nat): (t: Time)
    ensures now <= t
    ensures now + delay <= MAX_TIME ==> t == now + delay
    ensures t == now && delay > 0 ==> now == MAX_TIME
  {
    if now + delay > MAX_TIME then MAX_TIME else now + delay
  }

  function Started(generation: nat, now: Time): Retry {
    STOPPED.(generation := generation, enabled := generation != 0, outageSince := now, nextAttempt := now)
  }

  function Paused(r: Retry): Retry {
    r.(paused := true, nextAttempt := 0)
  }

  function Connected(r: Retry, now: Time): Retry {
    if !r.enabled || r.paused then r
    else r.(online := true, inFlight := false, deadline := 0, nextAttempt := 0, stableSince := now, announced := false)
  }

  function Delay(backoff: nat, authFailures: nat): nat {
    if authFailures >= 3 then AUTH_MS
    else if backoff == 0 then 5000
    else if backoff == 1 then 15000
    else if backoff == 2 then 30000
    else 60000
  }

  function Jitter(delay: nat): nat {
    if delay / 10 < 5000 then delay / 10 else 5000
  }

  function Jittered(delay: nat, random: nat): (d: nat)
    ensures delay <= d <= delay + Jitter(delay)
  {
    delay + random % (Jitter(delay) + 1)
  }

  function Failed(r: Retry, now: Time, auth: bool, random: nat): Retry {
    if !r.enabled || r.paused || (!r.inFlight && !r.online) then r
    else if r.online then
      r.(online := false, inFlight := false, outageSince := now, stableSince := 0, announced := false, nextAttempt := now)
    else
      var authFailures := if !auth then 0 else if r.authFailures < 255 then r.authFailures + 1 else r.authFailures;
      r.(inFlight := false, deadline := 0, authFailures := authFailures,
      backoff := if r.backoff < 3 then r.backoff + 1 else r.backoff,
      nextAttempt := After(now, Jittered(Delay(r.backoff, authFailures), random)))
  }

  predicate OutageIsLong(r: Retry, now: Time) {
    !r.announced && now >= r.outageSince + RECOVERY_MS
  }

  function Polled(r: Retry, now: Time, random: nat): (Retry, Actions) {
    if !r.enabled || r.paused then (r, NOTHING)
    else if r.online then
      (if now >= r.stableSince + STABLE_MS then r.(backoff := 0, authFailures := 0) else r, NOTHING)
    else
      var openAp := OutageIsLong(r, now);
      var r1 := if openAp then r.(announced := true) else r;
      var abort := r1.inFlight && now >= r1.deadline;
      var r2 := if abort then Failed(r1, now, false, random) else r1;
      var connect := !r2.inFlight && now >= r2.nextAttempt;
      var r3 := if connect then
                  r2.(inFlight := true, deadline := After(now, ATTEMPT_MS), nextAttempt := 0,
                  attempts := if r2.attempts < 0xFFFF_FFFF then r2.attempts + 1 else r2.attempts)
                else r2;
      (r3, Actions(connect, abort, openAp))
  }

  /** The milliseconds until the next attempt, in 32 bits. */
  function Remaining(r: Retry, now: Time): nat {
    if !r.enabled || r.paused || r.online || r.inFlight || now >= r.nextAttempt then 0
    else if r.nextAttempt - now > 0xFFFF_FFFF then 0xFFFF_FFFF
    else r.nextAttempt - now
  }

  // ---------- Histories ----------

  datatype Event =
    | Start(generation: nat, now: Time)
    | Stop
    | Pause
    | Connect(now: Time)
    | Fail(now: Time, auth: bool, random: nat)
    | Poll(now: Time, random: nat)

  function Step(r: Retry, e: Event): (Retry, Actions) {
    match e
    case Start(generation, now) => (Started(generation, now), NOTHING)
    case Stop => (STOPPED, NOTHING)
    case Pause => (Paused(r), NOTHING)
    case Connect(now) => (Connected(r, now), NOTHING)
    case Fail(now, auth, random) => (Failed(r, now, auth, random), NOTHING)
    case Poll(now, random) => Polled(r, now, random)
  }

  /**
   * What an observer of the events and actions knows: whether the policy is on,
   * paused and connected and since when, whether an attempt is underway and since
   * when, since when the connection is out and whether the access point was
   * asked for since, and how many attempts failed in a row.
   */
  datatype Observer = Observer(
    clock: Time,
    on: bool,
    paused: bool,
    connected: bool,
    since: Time,
    attempting: bool,
    attemptStart: Time,
    outageStart: Time,
    asked: bool,
    failures: nat,
    authFailures: nat)

  datatype World = World(r: Retry, o: Observer)

  const NOBODY: Observer := Observer(0, false, false, false, 0, false, 0, 0, false, 0, 0)

  const BEGIN: World := World(STOPPED, NOBODY)

  function Clock(e: Event, before: Time): Time {
    if e.Stop? || e.Pause? then before else e.now
  }

  predicate Live(o: Observer) {
    o.on && !o.paused
  }

  /** The driver reports that the connection is lost. */
  predicate ConnectionLost(o: Observer, e: Event) {
    e.Fail? && Live(o) && o.connected
  }

  /** An attempt that was underway fails: the driver says so, or a poll gives it up. */
  predicate AttemptFails(o: Observer, e: Event, actions: Actions) {
    (e.Fail? && Live(o) && !o.connected && o.attempting) || actions.abort
  }

  function FailureSeen(o: Observer, auth: bool): Observer {
    o.(attempting := false, failures := o.failures + 1, authFailures := if auth then o.authFailures + 1 else 0)
  }

  function PollSeen(o: Observer, now: Time, actions: Actions): Observer {
    var o1 := if actions.abort then FailureSeen(o, false) else o;
    var o2 := if actions.connect then o1.(attempting := true, attemptStart := now) else o1;
    o2.(asked := o.asked || actions.openAp)
  }

  function Observed(o: Observer, e: Event, actions: Actions): Observer {
    var o1 := o.(clock := Clock(e, o.clock));
    match e
    case Start(generation, now) => NOBODY.(clock := now, on := generation != 0, outageStart := now)
    case Stop => NOBODY.(clock := o.clock)
    case Pause => o.(paused := true)
    case Connect(now) =>
      if Live(o) then o1.(connected := true, since := now, attempting := false, asked := false) else o1
    case Fail(now, auth, _) =>
      if ConnectionLost(o, e) then o1.(connected := false, outageStart := now, attempting := false, asked := false)
      else if AttemptFails(o, e, actions) then FailureSeen(o1, auth)
      else o1
    case Poll(now, _) =>
      if Live(o) && o.connected && now >= o.since + 30000 then o1.(failures := 0, authFailures := 0)
      else PollSeen(o1, now, actions)
  }

  function Next(w: World, e: Event): World {
    World(Step(w.r, e).0, Observed(w.o, e, Step(w.r, e).1))
  }

  ghost function Run(events: seq<Event>): World {
    if events == [] then BEGIN else Next(Run(events[..|events| - 1]), events[|events| - 1])
  }

  /** Time never runs backwards. */
  ghost predicate Monotone(events: seq<Event>)
    decreases |events|
  {
    events == []
    || (var before, e := events[..|events| - 1], events[|events| - 1];
        && Monotone(before)
        && Run(before).o.clock <= Clock(e, Run(before).o.clock))
  }

  const LONGEST_DELAY: nat := 305000

  ghost predicate Invariant(w: World) {
    && w.r.enabled == w.o.on && w.r.paused == w.o.paused && w.r.online == w.o.connected
    && w.r.backoff == (if w.o.failures < 3 then w.o.failures else 3)
    && w.r.authFailures == (if w.o.authFailures < 255 then w.o.authFailures else 255)
    && (Live(w.o) ==> Matches(w.r, w.o))
  }

  /** What the policy keeps while it is at work. */
  ghost predicate Matches(r: Retry, o: Observer) {
    && r.inFlight == o.attempting && r.announced == o.asked
    && (o.connected ==> !o.attempting && !o.asked && r.stableSince == o.since)
    && (!o.connected ==> r.outageSince == o.outageStart)
    && (o.attempting ==> o.attemptStart <= o.clock && r.deadline == Ends(o.attemptStart))
    && (!o.connected && !o.attempting ==> r.nextAttempt <= o.clock + LONGEST_DELAY)
  }

  /** An attempt is given up after 20 seconds, or at the end of time. */
  function Ends(start: Time): Time {
    if start + 20000 > MAX_TIME then MAX_TIME else start + 20000
  }

  lemma StepKeepsInvariant(w: World, e: Event)
    requires Invariant(w) && w.o.clock <= Clock(e, w.o.clock)
    ensures Invariant(Next(w, e))
  {
    match e
    case Poll(now, random) => PollKeepsInvariant(w, now, random);
    case Fail(now, auth, random) => FailureKeepsInvariant(w, now, auth, random);
    case _ =>
  }

  lemma FailureKeepsInvariant(w: World, now: Time, auth: bool, random: nat)
    requires Invariant(w) && w.o.clock <= now
    ensures Invariant(Next(w, Fail(now, auth, random)))
  {
  }

  lemma PollKeepsInvariant(w: World, now: Time, random: nat)
    requires Invariant(w) && w.o.clock <= now
    ensures Invariant(Next(w, Poll(now, random)))
  {
  }

  lemma {:induction false} InvariantHolds(events: seq<Event>)
    requires Monotone(events)
    ensures Invariant(Run(events))
    decreases |events|
  {
    hide Next, Invariant;
    if events == [] {
      assert Invariant(BEGIN) by {
        BeginIsSound();
      }
    } else {
      var before := events[..|events| - 1];
      InvariantHolds(before);
      StepKeepsInvariant(Run(before), events[|events| - 1]);
    }
  }

  lemma BeginIsSound()
    ensures Invariant(BEGIN)
  {
  }

  /**
   * Over every history, a poll asks for the access point if and only if the
   * connection is out for 45 seconds and it was not asked for in this outage,
   * and gives an attempt up if and only if it lasts 20 seconds or time is over;
   * it does neither, and begins none, while the policy is off, paused or
   * connected.
   */
  lemma {:induction false} PollActsIff(events: seq<Event>, t: Time, random: nat)
    requires Monotone(events)
    ensures var o, actions := Run(events).o, Polled(Run(events).r, t, random).1;
            && (actions.openAp <==> Live(o) && !o.connected && !o.asked && t >= o.outageStart + 45000)
            && (actions.abort <==> Live(o) && !o.connected && o.attempting && (t >= o.attemptStart + 20000 || t == MAX_TIME))
            && (actions.connect ==> Live(o) && !o.connected)
  {
    InvariantHolds(events);
  }

  /** Over every history, a start and the loss of a connection are followed by an attempt at once. */
  lemma {:induction false} TriesAtOnce(events: seq<Event>, e: Event, random: nat)
    requires Monotone(events)
    requires (e.Start? && e.generation != 0) || ConnectionLost(Run(events).o, e)
    ensures Polled(Step(Run(events).r, e).0, e.now, random).1.connect
  {
    InvariantHolds(events);
  }

  /** Over every history, an attempt is only begun while none is underway. */
  lemma {:induction false} NeverTwoAttempts(events: seq<Event>, e: Event)
    requires Monotone(events) && Step(Run(events).r, e).1.connect
    ensures Run(events).o.attempting ==> Step(Run(events).r, e).1.abort
  {
    InvariantHolds(events);
  }

  /** Giving up and beginning an attempt coincide only at the end of time. */
  lemma AbortAndConnectIff(r: Retry, now: Time, random: nat)
    ensures Polled(r, now, random).1.abort ==> (Polled(r, now, random).1.connect <==> now == MAX_TIME)
  {
  }

  /** The delay before the attempt after `failures` failures in a row, `auth` of them the last by authentication. */
  function DelayAfter(failures: nat, auth: nat): nat
    requires failures > 0
  {
    if auth >= 3 then 300000
    else if failures == 1 then 5000
    else if failures == 2 then 15000
    else if failures == 3 then 30000
    else 60000
  }

  /** When the attempt after a failed one is due: after the delay, plus at most a tenth of it or 5 seconds. */
  ghost predicate DueInTime(now: Time, d: nat, due: Time) {
    now + d <= MAX_TIME ==> now + d <= due <= now + d + (if d / 10 < 5000 then d / 10 else 5000)
  }

  lemma FailureSchedules(w: World, e: Event)
    requires Invariant(w) && AttemptFails(w.o, e, Step(w.r, e).1) && !Step(w.r, e).1.connect
    ensures var o := Next(w, e).o;
            o.failures == w.o.failures + 1 && DueInTime(e.now, DelayAfter(o.failures, o.authFailures), Step(w.r, e).0.nextAttempt)
  {
  }

  /**
   * Over every history, the attempt after a failed one is due after the delay
   * for that many failures in a row, jitter included.
   */
  lemma {:induction false} NextAttemptIsDue(events: seq<Event>, e: Event)
    requires Monotone(events) && AttemptFails(Run(events).o, e, Step(Run(events).r, e).1) && !Step(Run(events).r, e).1.connect
    ensures var o := Next(Run(events), e).o;
            && o.failures == Run(events).o.failures + 1
            && DueInTime(e.now, DelayAfter(o.failures, o.authFailures), Step(Run(events).r, e).0.nextAttempt)
  {
    InvariantHolds(events);
    hide Run, Step, DelayAfter, DueInTime, Next, AttemptFails;
    FailureSchedules(Run(events), e);
  }

  predicate ConnectsAt(r: Retry, now: Time, random: nat) {
    Polled(r, now, random).1.connect
  }

  ghost predicate AlwaysConnectsAt(r: Retry, now: Time) {
    forall random: nat :: ConnectsAt(r, now, random)
  }

  /** A poll after the remaining time, at most 305 seconds on, begins the next attempt. */
  ghost predicate TriesAgain(r: Retry, now: Time) {
    && Remaining(r, now) <= 305000 && now + Remaining(r, now) <= MAX_TIME
    && AlwaysConnectsAt(r, now + Remaining(r, now))
  }

  lemma WaitingTriesAgain(w: World)
    requires Invariant(w) && Live(w.o) && !w.o.connected && !w.o.attempting
    ensures TriesAgain(w.r, w.o.clock)
  {
    assert w.r.nextAttempt <= w.o.clock + LONGEST_DELAY;
    assert w.o.clock + Remaining(w.r, w.o.clock) >= w.r.nextAttempt;
  }

  /** Over every history, an enabled policy that is offline never stops trying. */
  lemma {:induction false} NeverStopsTrying(events: seq<Event>)
    requires Monotone(events)
    requires var o := Run(events).o; Live(o) && !o.connected && !o.attempting
    ensures TriesAgain(Run(events).r, Run(events).o.clock)
  {
    InvariantHolds(events);
    hide Invariant, TriesAgain, Run;
    WaitingTriesAgain(Run(events));
  }

  // ---------- The policy object ----------

  class Policy {
    var generation: nat
    var enabled: bool
    var paused: bool
    var online: bool
    var inFlight: bool
    var announced: bool
    var backoff: nat
    var authFailures: nat
    var attempts: nat
    var outageSince: Time
    var stableSince: Time
    var nextAttempt: Time
    var deadline: Time

    ghost function View(): Retry
      reads this
    {
      Retry(generation, enabled, paused, online, inFlight, announced, backoff, authFailures, attempts,
            outageSince, stableSince, nextAttempt, deadline)
    }

    constructor ()
      ensures View() == STOPPED
    {
      generation, enabled, paused, online, inFlight, announced := 0, false, false, false, false, false;
      backoff, authFailures, attempts := 0, 0, 0;
      outageSince, stableSince, nextAttempt, deadline := 0, 0, 0, 0;
    }

    method Stop()
      modifies this
      ensures View() == STOPPED
    {
      generation := 0;
      enabled, paused, online, inFlight, announced := false, false, false, false, false;
      backoff, authFailures, attempts := 0, 0, 0;
      outageSince, stableSince := 0, 0;
      nextAttempt, deadline := 0, 0;
    }

    method Start(newGeneration: nat, now: Time)
      modifies this
      ensures View() == Started(newGeneration, now)
    {
      Stop();
      generation := newGeneration;
      enabled := newGeneration != 0;
      outageSince := now;
      nextAttempt := now;
    }

    method Pause()
      modifies this`paused, this`nextAttempt
      ensures View() == Paused(old(View()))
    {
      paused := true;
      nextAttempt := 0;
    }

    method Connect(now: Time)
      modifies this
      ensures View() == Connected(old(View()), now)
    {
      if !enabled || paused {
        return;
      }
      online := true;
      inFlight := false;
      deadline := 0;
      nextAttempt := 0;
      stableSince := now;
      announced := false;
    }

    method Fail(now: Time, auth: bool, random: nat)
      modifies this
      ensures View() == Failed(old(View()), now, auth, random)
    {
      if !enabled || paused || (!inFlight && !online) {
        return;
      }
      if online {
        online := false;
        inFlight := false;
        outageSince := now;
        stableSince := 0;
        announced := false;
        nextAttempt := now;
        return;
      }
      inFlight := false;
      deadline := 0;
      if auth {
        if authFailures < 255 {
          authFailures := authFailures + 1;
        }
      } else {
        authFailures := 0;
      }
      var delays := [5000, 15000, 30000, 60000];
      var delay := delays[if backoff < 3 then backoff else 3];
      if backoff < 3 {
        backoff := backoff + 1;
      }
      if authFailures >= 3 {
        delay := AUTH_MS;
      }
      nextAttempt := After(now, Jittered(delay, random));
    }

    method Poll(now: Time, random: nat) returns (actions: Actions)
      modifies this
      ensures (View(), actions) == Polled(old(View()), now, random)
    {
      hide Failed;
      if !enabled || paused {
        return NOTHING;
      }
      if online {
        if now >= stableSince && now - stableSince >= STABLE_MS {
          backoff := 0;
          authFailures := 0;
        }
        return NOTHING;
      }
      actions := NOTHING;
      if !announced && now >= outageSince && now - outageSince >= RECOVERY_MS {
        announced := true;
        actions := actions.(openAp := true);
      }
      if inFlight && now >= deadline {
        Fail(now, false, random);
        actions := actions.(abort := true);
      }
      if !inFlight && now >= nextAttempt {
        inFlight := true;
        deadline := After(now, ATTEMPT_MS);
        nextAttempt := 0;
        if attempts < 0xFFFF_FFFF {
          attempts := attempts + 1;
        }
        actions := actions.(connect := true);
      }
    }
  }
}
