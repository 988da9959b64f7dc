/**
 * The provisioning state: which networks are required, reduced from one event
 * at a time. Times are those of the caller's clock and end at the largest
 * unsigned 64-bit number.
 */
module ProvisioningState {

  const MAX_TIME: nat := 0xFFFF_FFFF_FFFF_FFFF
  const RECOVERY_WINDOW_MS: nat := 600000
  const REJECTED_RECOVERY_MS: nat := 600000
  const REFUSAL_PAIR_MS: nat := 3000

  datatype Event =
    | BootNoConfig
    | BootValidConfig
    | WifiConnected
    | WifiTimeout
    | MqttConnected
    | MqttFailed
    | BondPresent
    | BondRemoved
    | BootHeld
    | PortalIdleTimeout
    | WifiDisconnected
    | MqttRejected
    | MqttSettingsVerified

  /** An event and the time it is reduced at. */
  datatype Stamped = At(event: Event, now: nat)

  datatype State = State(
    validConfig: bool,
    wifi: bool,
    mqtt: bool,
    bond: bool,
    recoveryRequired: bool,
    recoveryWindow: bool,
    apRequired: bool,
    staRequired: bool,
    verified: bool,
    recoveryDeadline: nat,
    refusals: Refusals)

  /** The refusals in a row, and whether they called for recovery. */
  datatype Refusals = Refusals(rejecting: bool, recovery: bool, since: nat, last: nat)

  const NO_REFUSALS: Refusals := Refusals(false, false, 0, 0)

  const INITIAL: State :=
    State(false, false, false, false, false, false, false, false, false, 0, NO_REFUSALS)

  // ---------- The reducer ----------

  function Reconciled(s: State): State {
    s.(staRequired := s.validConfig, apRequired := !s.validConfig || s.recoveryRequired || s.recoveryWindow)
  }

  function RefusalForgotten(s: State): State {
    s.(refusals := NO_REFUSALS)
  }

  function Booted(s: State, valid: bool): State {
    RefusalForgotten(s.(validConfig := valid, wifi := false, mqtt := false, recoveryRequired := false,
                        recoveryWindow := false, recoveryDeadline := 0, verified := false))
  }

  /** A failure right after a refusal is the end of the refused attempt. */
  predicate EndsRefusedAttempt(s: State, now: nat) {
    s.refusals.rejecting && s.refusals.last <= now <= s.refusals.last + REFUSAL_PAIR_MS
  }

  function Failed(s: State, now: nat): State {
    var s1 := s.(mqtt := false);
    if !s.verified then s1.(recoveryRequired := true)
    else if !s.wifi || EndsRefusedAttempt(s, now) then s1
    else
      (if s.refusals.recovery then s1 else RefusalForgotten(s1)).(recoveryRequired := s.refusals.recovery)
  }

  /** The streak after a refusal: it calls for recovery once it has lasted ten minutes. */
  function Refused(r: Refusals, now: nat): Refusals {
    var since := if r.rejecting then r.since else now;
    Refusals(true, r.recovery || now >= since + REJECTED_RECOVERY_MS, since, now)
  }

  function Rejected(s: State, now: nat): State {
    var s1 := s.(mqtt := false);
    if !s.verified then s1.(recoveryRequired := true)
    else
      var r := Refused(s.refusals, now);
      s1.(refusals := r, recoveryRequired := if s.wifi then r.recovery else s.recoveryRequired)
  }

  function Applied(s: State, event: Event, now: nat): State {
    match event
    case BootNoConfig => Booted(s, false)
    case BootValidConfig => Booted(s, true)
    case WifiConnected => s.(wifi := true)
    case WifiDisconnected => s.(wifi := false, mqtt := false)
    case WifiTimeout => s.(wifi := false, mqtt := false, recoveryRequired := true)
    case MqttConnected =>
      if s.wifi then RefusalForgotten(s.(mqtt := true, recoveryRequired := false, verified := true))
      else s.(mqtt := false)
    case MqttFailed => Failed(s, now)
    case MqttRejected => Rejected(s, now)
    case MqttSettingsVerified => s.(verified := s.validConfig)
    case BondPresent => s.(bond := true)
    case BondRemoved => s.(bond := false)
    case BootHeld =>
      s.(recoveryWindow := true,
      recoveryDeadline := if now + RECOVERY_WINDOW_MS > MAX_TIME then MAX_TIME else now + RECOVERY_WINDOW_MS)
    case PortalIdleTimeout =>
      if s.recoveryWindow && now >= s.recoveryDeadline then s.(recoveryWindow := false, recoveryDeadline := 0) else s
  }

  function Reduce(s: State, event: Event, now: nat): State {
    Reconciled(Applied(s, event, now))
  }

  ghost function Run(events: seq<Stamped>): State {
    if events == [] then INITIAL
    else Reduce(Run(events[..|events| - 1]), events[|events| - 1].event, events[|events| - 1].now)
  }

  // ---------- Connected means connected ----------

  ghost predicate Consistent(s: State) {
    && (s.mqtt ==> s.wifi && !s.recoveryRequired)
    && (s.refusals.recovery ==> s.refusals.rejecting)
  }

  lemma AppliedKeepsConsistent(s: State, event: Event, now: nat)
    requires Consistent(s)
    ensures Consistent(Applied(s, event, now))
  {
    match event
    case MqttFailed =>
    case MqttRejected =>
    case MqttConnected =>
    case WifiTimeout =>
    case _ =>
  }

  lemma ReduceKeepsConsistent(s: State, event: Event, now: nat)
    requires Consistent(s)
    ensures Consistent(Reduce(s, event, now))
  {
    AppliedKeepsConsistent(s, event, now);
    hide Applied;
  }

  /**
   * Over every history, a broker connection implies a Wi-Fi connection and no
   * need of recovery, and the required networks follow from the rest.
   */
  lemma {:induction false} ConnectedIsConsistent(events: seq<Stamped>)
    ensures Consistent(Run(events))
    ensures events != [] ==> Run(events) == Reconciled(Run(events))
    decreases |events|
  {
    if events != [] {
      hide Reduce, Consistent;
      ConnectedIsConsistent(events[..|events| - 1]);
      ReduceKeepsConsistent(Run(events[..|events| - 1]), events[|events| - 1].event, events[|events| - 1].now);
      ReduceReconciles(Run(events[..|events| - 1]), events[|events| - 1].event, events[|events| - 1].now);
    } else {
      assert Consistent(INITIAL);
    }
  }

  lemma ReduceReconciles(s: State, event: Event, now: nat)
    ensures Reduce(s, event, now) == Reconciled(Reduce(s, event, now))
  {
  }

  // ---------- Ten minutes of refusals ----------

  /** The events that end a streak of refusals: a boot, a connection over Wi-Fi, or a failure of its own over Wi-Fi. */
  predicate BreaksStreak(s: State, e: Stamped) {
    || e.event.BootNoConfig? || e.event.BootValidConfig?
    || (e.event.MqttConnected? && s.wifi)
    || (e.event.MqttFailed? && s.verified && s.wifi && !EndsRefusedAttempt(s, e.now))
  }

  /** The event at position i ends the streak there is. */
  ghost predicate BreaksAt(events: seq<Stamped>, i: nat)
    requires i < |events|
  {
    BreaksStreak(Run(events[..i]), events[i])
  }

  /** A refusal at position j, with nothing after it that ends its streak. */
  ghost predicate StreakSince(events: seq<Stamped>, j: nat, start: nat) {
    && j < |events| && events[j] == At(MqttRejected, start)
    && forall i :: j < i < |events| ==> !BreaksAt(events, i)
  }

  /** What one event does to the refusals. */
  function RefusalsAfter(s: State, e: Stamped): Refusals {
    if e.event.MqttRejected? && s.verified then Refused(s.refusals, e.now)
    else if BreaksStreak(s, e) && !(e.event.MqttFailed? && s.refusals.recovery) then NO_REFUSALS
    else s.refusals
  }

  lemma ConnectionEndsRefusals(s: State, e: Stamped)
    requires e.event.MqttConnected?
    ensures Reduce(s, e.event, e.now).refusals == RefusalsAfter(s, e)
  {
    if s.wifi {
    }
  }

  lemma FailureKeepsPairedRefusals(s: State, e: Stamped)
    requires e.event.MqttFailed?
    ensures Reduce(s, e.event, e.now).refusals == RefusalsAfter(s, e)
  {
    if s.verified && s.wifi && !EndsRefusedAttempt(s, e.now) {
    }
  }

  lemma OtherEventsKeepRefusals(s: State, event: Event, now: nat)
    requires !event.MqttConnected? && !event.MqttFailed? && !event.MqttRejected?
    requires !event.BootNoConfig? && !event.BootValidConfig?
    ensures Reduce(s, event, now).refusals == s.refusals
  {
    match event
    case WifiConnected => assert Applied(s, WifiConnected, now).refusals == s.refusals;
    case WifiTimeout => assert Applied(s, WifiTimeout, now).refusals == s.refusals;
    case BondPresent => assert Applied(s, BondPresent, now).refusals == s.refusals;
    case BondRemoved => assert Applied(s, BondRemoved, now).refusals == s.refusals;
    case BootHeld => assert Applied(s, BootHeld, now).refusals == s.refusals;
    case PortalIdleTimeout => assert Applied(s, PortalIdleTimeout, now).refusals == s.refusals;
    case WifiDisconnected => assert Applied(s, WifiDisconnected, now).refusals == s.refusals;
    case MqttSettingsVerified => assert Applied(s, MqttSettingsVerified, now).refusals == s.refusals;
  }

  lemma RefusalsStep(s: State, e: Stamped)
    ensures Reduce(s, e.event, e.now).refusals == RefusalsAfter(s, e)
  {
    match e.event
    case MqttConnected => ConnectionEndsRefusals(s, e);
    case MqttFailed => FailureKeepsPairedRefusals(s, e);
    case MqttRejected => assert Applied(s, MqttRejected, e.now).refusals == RefusalsAfter(s, e);
    case BootNoConfig => assert Applied(s, BootNoConfig, e.now).refusals == NO_REFUSALS;
    case BootValidConfig => assert Applied(s, BootValidConfig, e.now).refusals == NO_REFUSALS;
    case _ =>
      hide Reduce;
      OtherEventsKeepRefusals(s, e.event, e.now);
  }

  lemma {:induction false} StreakHasStart(events: seq<Stamped>)
    requires Run(events).refusals.rejecting && !Run(events).refusals.recovery
    ensures exists j :: StreakSince(events, j, Run(events).refusals.since)
    decreases |events|
  {
    hide Reduce, EndsRefusedAttempt;
    var before, e := events[..|events| - 1], events[|events| - 1];
    RefusalsStep(Run(before), e);
    assert before + [e] == events;
    if Run(before).refusals.rejecting {
      StreakHasStart(before);
      var j: nat :| StreakSince(before, j, Run(before).refusals.since);
      forall i: nat | j < i < |events|
        ensures !BreaksAt(events, i)
      {
        if i < |before| {
          assert events[..i] == before[..i];
          assert !BreaksAt(before, i);
        }
      }
      assert StreakSince(events, j, Run(events).refusals.since);
    } else {
      assert StreakSince(events, |events| - 1, Run(events).refusals.since);
    }
  }

  /**
   * Over every history, recovery from refusals begins only when a refusal
   * arrives at least ten minutes after an earlier one with which it forms a
   * streak: no boot, no connection over Wi-Fi and no unpaired failure between.
   */
  lemma RecoveryNeedsTenMinutes(events: seq<Stamped>, e: Stamped)
    ensures RecoveryBegins(Run(events), e) ==>
              && e.event.MqttRejected?
              && exists j: nat, start: nat :: StreakSince(events, j, start) && e.now >= start + 600000
  {
    var s := Run(events);
    RefusalsStep(s, e);
    hide Reduce, Run;
    if RecoveryBegins(s, e) {
      StreakHasStart(events);
      var j :| StreakSince(events, j, s.refusals.since);
    }
  }

  ghost predicate RecoveryBegins(s: State, e: Stamped) {
    !s.refusals.recovery && Reduce(s, e.event, e.now).refusals.recovery
  }

  // ---------- Broker trouble alone does not open the access point ----------

  predicate BrokerEvent(e: Event) {
    e.MqttFailed? || e.MqttRejected? || e.MqttConnected?
  }

  /** Settings that connected before, and no reason for the access point. */
  predicate Proven(s: State) {
    s.validConfig && s.verified && !s.recoveryRequired && !s.recoveryWindow && !s.apRequired
  }

  lemma BrokerStepIsProven(s: State, e: Stamped)
    requires Proven(s) && !s.refusals.recovery && BrokerEvent(e.event)
    requires !Reduce(s, e.event, e.now).refusals.recovery
    ensures Proven(Reduce(s, e.event, e.now))
  {
  }

  predicate Closed(s: State) {
    Proven(s) && !s.refusals.recovery
  }

  lemma ClosedUntilRecovery(s: State, e: Stamped)
    requires Closed(s) && BrokerEvent(e.event) && !RecoveryBegins(s, e)
    ensures Closed(Reduce(s, e.event, e.now))
  {
    BrokerStepIsProven(s, e);
  }

  /**
   * While proven settings meet nothing but broker failures, refusals and
   * connections, the access point opens only after a refusal that is at least
   * ten minutes into its streak.
   */
  lemma {:induction false} ApNeedsTenMinutes(past: seq<Stamped>, events: seq<Stamped>)
    requires Closed(Run(past)) && forall e <- events :: BrokerEvent(e.event)
    ensures Closed(Run(past + events)) || exists k: nat :: k < |events| && TenMinutesIn(past + events[..k], events[k])
    decreases |events|
  {
    hide Run, Reduce, Closed, TenMinutesIn, RecoveryBegins, BrokerEvent;
    if events == [] {
      assert past + events == past;
    } else {
      var before, e := events[..|events| - 1], events[|events| - 1];
      assert e in events && forall b <- before :: b in events;
      ApNeedsTenMinutes(past, before);
      assert past + events == (past + before) + [e];
      LastOfRun(past + before, e);
      if k: nat :| k < |before| && TenMinutesIn(past + before[..k], before[k]) {
        assert before[..k] == events[..k];
        assert TenMinutesIn(past + events[..k], events[k]);
      } else if RecoveryBegins(Run(past + before), e) {
        RecoveryIsTenMinutesIn(past + before, e);
        assert TenMinutesIn(past + events[..|before|], events[|before|]);
      } else {
        ClosedUntilRecovery(Run(past + before), e);
      }
    }
  }

  lemma RecoveryIsTenMinutesIn(events: seq<Stamped>, e: Stamped)
    ensures RecoveryBegins(Run(events), e) ==> TenMinutesIn(events, e)
  {
    hide Run, RecoveryBegins, StreakSince;
    RecoveryNeedsTenMinutes(events, e);
  }

  /** A refusal at least ten minutes after one with which it forms a streak. */
  ghost predicate TenMinutesIn(events: seq<Stamped>, e: Stamped) {
    e.event.MqttRejected? && exists j: nat, start: nat :: StreakSince(events, j, start) && e.now >= start + 600000
  }

  lemma LastOfRun(events: seq<Stamped>, e: Stamped)
    ensures Run(events + [e]) == Reduce(Run(events), e.event, e.now)
  {
    assert (events + [e])[..|events|] == events;
  }

  /** The refusal that completes a ten-minute streak over Wi-Fi does open it. */
  lemma TenMinutesOpenAp(s: State, now: nat)
    requires Proven(s) && s.wifi && s.refusals.rejecting && now >= s.refusals.since + 600000
    ensures Reduce(s, MqttRejected, now).apRequired
    ensures forall t: nat :: Reduce(Reduce(s, MqttRejected, now), MqttFailed, t).apRequired
  {
  }
}
