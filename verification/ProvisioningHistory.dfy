/** Why the access point is open, told from the events alone. */
module ProvisioningHistory {

  // Each requirement is a question about the past: something happened that asks
  // for it, and nothing since has taken that back.

  import opened Histories
  import opened ProvisioningState
  import opened ProvisioningSteps

  // ---------- The connections ----------

  predicate Boots(past: seq<Stamped>, e: Stamped) {
    e.event == BootNoConfig || e.event == BootValidConfig
  }

  predicate BootsUnconfigured(past: seq<Stamped>, e: Stamped) {
    e.event == BootNoConfig
  }

  predicate BootsConfigured(past: seq<Stamped>, e: Stamped) {
    e.event == BootValidConfig
  }

  predicate JoinsWifi(past: seq<Stamped>, e: Stamped) {
    e.event == WifiConnected
  }

  predicate LosesWifi(past: seq<Stamped>, e: Stamped) {
    Boots(past, e) || e.event == WifiDisconnected || e.event == WifiTimeout
  }

  ghost predicate Configured(events: seq<Stamped>) {
    Holds(events, BootsConfigured, BootsUnconfigured)
  }

  ghost predicate OnWifi(events: seq<Stamped>) {
    Holds(events, JoinsWifi, LosesWifi)
  }

  ghost predicate ConnectsOverWifi(past: seq<Stamped>, e: Stamped) {
    e.event == MqttConnected && OnWifi(past)
  }

  ghost predicate LosesBroker(past: seq<Stamped>, e: Stamped) {
    LosesWifi(past, e) || e.event == MqttFailed || e.event == MqttRejected || e.event == MqttConnected
  }

  ghost predicate OnBroker(events: seq<Stamped>) {
    Holds(events, ConnectsOverWifi, LosesBroker)
  }

  predicate Bonds(past: seq<Stamped>, e: Stamped) {
    e.event == BondPresent
  }

  predicate Unbonds(past: seq<Stamped>, e: Stamped) {
    e.event == BondRemoved
  }

  ghost predicate Bonded(events: seq<Stamped>) {
    Holds(events, Bonds, Unbonds)
  }

  // ---------- Proven settings ----------

  ghost predicate Proves(past: seq<Stamped>, e: Stamped) {
    ConnectsOverWifi(past, e) || (e.event == MqttSettingsVerified && Configured(past))
  }

  ghost predicate Disproves(past: seq<Stamped>, e: Stamped) {
    Boots(past, e) || (e.event == MqttSettingsVerified && !Configured(past))
  }

  /** The broker settings connected before, or were verified. */
  ghost predicate ProvenSettings(events: seq<Stamped>) {
    Holds(events, Proves, Disproves)
  }

  // ---------- Refusals in a row ----------

  ghost predicate RefusesProven(past: seq<Stamped>, e: Stamped) {
    e.event == MqttRejected && ProvenSettings(past)
  }

  /** A failure of proven settings over Wi-Fi that does not follow a refusal within three seconds. */
  ghost predicate FailsUnpaired(past: seq<Stamped>, row: Row, e: Stamped) {
    && e.event == MqttFailed && ProvenSettings(past) && OnWifi(past)
    && !(row.Row? && row.last <= e.now <= row.last + 3000)
  }

  /** What one event does to a row of refusals. */
  ghost function RowAfter(past: seq<Stamped>, row: Row, e: Stamped): Row {
    if RefusesProven(past, e) then
      var since := if row.Row? then row.since else e.now;
      Row(since, e.now, (row.Row? && row.long) || e.now >= since + 600000)
    else if Boots(past, e) || ConnectsOverWifi(past, e) then NoRow
    else if FailsUnpaired(past, row, e) && row.Row? && !row.long then NoRow
    else row
  }

  ghost function RowOf(events: seq<Stamped>): Row
    decreases |events|
  {
    if events == [] then NoRow
    else RowAfter(events[..|events| - 1], RowOf(events[..|events| - 1]), events[|events| - 1])
  }

  // ---------- Calls for recovery ----------

  ghost predicate LongAfter(past: seq<Stamped>, e: Stamped) {
    RowOf(past + [e]).Row? && RowOf(past + [e]).long
  }

  /** Wi-Fi is not found, settings fail or are refused before they were proven, or refusals over Wi-Fi last ten minutes. */
  ghost predicate CallsForRecovery(past: seq<Stamped>, e: Stamped) {
    || e.event == WifiTimeout
    || ((e.event == MqttFailed || e.event == MqttRejected) && !ProvenSettings(past))
    || (e.event == MqttRejected && ProvenSettings(past) && OnWifi(past) && LongAfter(past, e))
    || (FailsUnpaired(past, RowOf(past), e) && LongAfter(past, e))
  }

  /** A boot, a connection over Wi-Fi, or trouble of proven settings over Wi-Fi that is not ten minutes of refusals. */
  ghost predicate WithdrawsRecovery(past: seq<Stamped>, e: Stamped) {
    || Boots(past, e) || ConnectsOverWifi(past, e)
    || (e.event == MqttRejected && ProvenSettings(past) && OnWifi(past) && !LongAfter(past, e))
    || (FailsUnpaired(past, RowOf(past), e) && !LongAfter(past, e))
  }

  ghost predicate RecoveryCalledFor(events: seq<Stamped>) {
    Holds(events, CallsForRecovery, WithdrawsRecovery)
  }

  // ---------- The recovery window ----------

  predicate HoldsBoot(past: seq<Stamped>, e: Stamped) {
    e.event == BootHeld
  }

  /** When the button was last held. */
  ghost predicate HeldAt(events: seq<Stamped>, now: nat) {
    exists j: nat :: j < |events| && events[j] == At(BootHeld, now) && forall i :: j < i < |events| ==> events[i].event != BootHeld
  }

  /** A portal idle for long ends the window ten minutes after the button was last held, or at the end of time. */
  ghost predicate EndsWindow(past: seq<Stamped>, e: Stamped) {
    Boots(past, e)
    || (e.event == PortalIdleTimeout
        && exists held: nat :: HeldAt(past, held) && (e.now >= held + 600000 || e.now >= MAX_TIME))
  }

  ghost predicate WindowOpen(events: seq<Stamped>) {
    Holds(events, HoldsBoot, EndsWindow)
  }

  // ---------- The reducer agrees ----------

  ghost predicate Deadline(s: State, events: seq<Stamped>) {
    s.recoveryWindow ==>
      exists held: nat :: HeldAt(events, held) && s.recoveryDeadline == TenMinutesAfter(held)
  }

  ghost predicate Agrees(s: State, events: seq<Stamped>) {
    && (s.validConfig <==> Configured(events)) && (s.wifi <==> OnWifi(events)) && (s.mqtt <==> OnBroker(events))
    && (s.verified <==> ProvenSettings(events)) && (s.recoveryRequired <==> RecoveryCalledFor(events))
    && (s.recoveryWindow <==> WindowOpen(events)) && (s.bond <==> Bonded(events))
    && RowAgrees(s.refusals, RowOf(events)) && Deadline(s, events)
  }

  lemma ConnectionsStep(events: seq<Stamped>, e: Stamped)
    ensures Configured(events + [e]) <==> BootsConfigured(events, e) || (Configured(events) && !BootsUnconfigured(events, e))
    ensures OnWifi(events + [e]) <==> JoinsWifi(events, e) || (OnWifi(events) && !LosesWifi(events, e))
    ensures OnBroker(events + [e]) <==> ConnectsOverWifi(events, e) || (OnBroker(events) && !LosesBroker(events, e))
    ensures ProvenSettings(events + [e]) <==> Proves(events, e) || (ProvenSettings(events) && !Disproves(events, e))
  {
    HoldsStep(events, e, BootsConfigured, BootsUnconfigured);
    HoldsStep(events, e, JoinsWifi, LosesWifi);
    HoldsStep(events, e, ConnectsOverWifi, LosesBroker);
    HoldsStep(events, e, Proves, Disproves);
  }

  lemma BondedStep(events: seq<Stamped>, e: Stamped)
    ensures Bonded(events + [e]) <==> Bonds(events, e) || (Bonded(events) && !Unbonds(events, e))
  {
    HoldsStep(events, e, Bonds, Unbonds);
  }

  lemma RecoveryStep(events: seq<Stamped>, e: Stamped)
    ensures RecoveryCalledFor(events + [e])
        <==> CallsForRecovery(events, e) || (RecoveryCalledFor(events) && !WithdrawsRecovery(events, e))
    ensures WindowOpen(events + [e]) <==> HoldsBoot(events, e) || (WindowOpen(events) && !EndsWindow(events, e))
  {
    HoldsStep(events, e, CallsForRecovery, WithdrawsRecovery);
    HoldsStep(events, e, HoldsBoot, EndsWindow);
  }

  lemma HeldStep(events: seq<Stamped>, e: Stamped, now: nat)
    ensures HeldAt(events + [e], now) <==> if e.event == BootHeld then e.now == now else HeldAt(events, now)
  {
    var all, n := events + [e], |events|;
    if e.event == BootHeld && e.now == now {
      assert all[n] == At(BootHeld, now);
    }
    if HeldAt(all, now) {
      var j: nat :| j < |all| && all[j] == At(BootHeld, now) && forall i :: j < i < |all| ==> all[i].event != BootHeld;
      if e.event != BootHeld {
        assert events[j] == all[j];
        assert forall i :: j < i < |events| ==> events[i] == all[i];
      } else {
        assert all[n].event == BootHeld;
      }
    }
    if e.event != BootHeld && HeldAt(events, now) {
      var j: nat :| j < n && events[j] == At(BootHeld, now) && forall i :: j < i < n ==> events[i].event != BootHeld;
      assert all[j] == events[j];
    }
  }

  lemma HeldOnce(events: seq<Stamped>, a: nat, b: nat)
    requires HeldAt(events, a) && HeldAt(events, b)
    ensures a == b
  {
  }

  lemma LastOf(events: seq<Stamped>, e: Stamped)
    ensures (events + [e])[..|events|] == events && (events + [e])[|events|] == e
  {
  }

  lemma RowStep(events: seq<Stamped>, e: Stamped)
    ensures RowOf(events + [e]) == RowAfter(events, RowOf(events), e)
  {
    LastOf(events, e);
    hide RowAfter;
  }

  /** The refusals the reducer keeps are the row. */
  lemma RowAgreesAfter(events: seq<Stamped>, row: Row, e: Stamped, s: State)
    requires RowAgrees(s.refusals, row)
    requires (s.wifi <==> OnWifi(events)) && (s.verified <==> ProvenSettings(events))
    ensures RowAgrees(Reduce(s, e.event, e.now).refusals, RowAfter(events, row, e))
  {
    hide Reduce, OnWifi, ProvenSettings;
    RefusalsStep(s, e);
  }

  lemma StepAgrees(events: seq<Stamped>, e: Stamped, s: State)
    requires Agrees(s, events)
    ensures Agrees(Reduce(s, e.event, e.now), events + [e])
  {
    hide Configured, OnWifi, OnBroker, ProvenSettings, RecoveryCalledFor, WindowOpen, Bonded;
    hide Applied, RowOf, RowAfter, RowAgrees, Deadline;
    FlagsAgree(events, e, s);
    BondAfter(s, e.event, e.now);
    BondedStep(events, e);
    RowStep(events, e);
    RowAgreesAfter(events, RowOf(events), e, s);
    RecoveryAgrees(events, e, s);
    WindowAgrees(events, e, s);
  }

  lemma FlagsAgree(events: seq<Stamped>, e: Stamped, s: State)
    requires (s.validConfig <==> Configured(events)) && (s.wifi <==> OnWifi(events)) && (s.mqtt <==> OnBroker(events))
    requires s.verified <==> ProvenSettings(events)
    ensures var t := Reduce(s, e.event, e.now);
            && (t.validConfig <==> Configured(events + [e])) && (t.wifi <==> OnWifi(events + [e]))
            && (t.mqtt <==> OnBroker(events + [e])) && (t.verified <==> ProvenSettings(events + [e]))
  {
    hide Configured, OnWifi, OnBroker, ProvenSettings, Applied;
    ConnectionsStep(events, e);
    ConnectionsAfter(s, e.event, e.now);
    ProofAfter(s, e.event, e.now);
  }

  lemma RecoveryAgrees(events: seq<Stamped>, e: Stamped, s: State)
    requires RowAgrees(s.refusals, RowOf(events))
    requires (s.wifi <==> OnWifi(events)) && (s.verified <==> ProvenSettings(events))
    requires s.recoveryRequired <==> RecoveryCalledFor(events)
    ensures Reduce(s, e.event, e.now).recoveryRequired <==> RecoveryCalledFor(events + [e])
  {
    hide OnWifi, ProvenSettings, RecoveryCalledFor, Applied, RowOf, RowAfter;
    RecoveryStep(events, e);
    RowStep(events, e);
    RowAgreesAfter(events, RowOf(events), e, s);
    RecoveryAfter(s, RowOf(events), e.event, e.now);
  }

  lemma WindowAgrees(events: seq<Stamped>, e: Stamped, s: State)
    requires (s.recoveryWindow <==> WindowOpen(events)) && Deadline(s, events)
    ensures var t := Reduce(s, e.event, e.now);
            (t.recoveryWindow <==> WindowOpen(events + [e])) && Deadline(t, events + [e])
  {
    hide WindowOpen, RecoveryCalledFor, Applied, HeldAt;
    RecoveryStep(events, e);
    WindowAfter(s, e.event, e.now);
    DeadlineAfter(s, e.event, e.now);
    if s.recoveryWindow {
      var held: nat :| HeldAt(events, held) && s.recoveryDeadline == TenMinutesAfter(held);
      HeldStep(events, e, held);
      OnlyHeld(events, held);
    }
    HeldStep(events, e, e.now);
  }

  lemma OnlyHeld(events: seq<Stamped>, held: nat)
    requires HeldAt(events, held)
    ensures forall other: nat :: HeldAt(events, other) ==> other == held
  {
    forall other: nat | HeldAt(events, other)
      ensures other == held
    {
      HeldOnce(events, other, held);
    }
  }

  lemma {:induction false} RunAgrees(events: seq<Stamped>)
    ensures Agrees(Run(events), events)
    decreases |events|
  {
    hide Reduce, Agrees;
    if events == [] {
      assert Agrees(INITIAL, []) by {
        InitialAgrees();
      }
    } else {
      var past, e := events[..|events| - 1], events[|events| - 1];
      RunAgrees(past);
      StepAgrees(past, e, Run(past));
      assert events == past + [e];
    }
  }

  lemma InitialAgrees()
    ensures Agrees(INITIAL, [])
  {
    NothingHolds(BootsConfigured, BootsUnconfigured);
    NothingHolds(JoinsWifi, LosesWifi);
    NothingHolds(ConnectsOverWifi, LosesBroker);
    NothingHolds(Proves, Disproves);
    NothingHolds(CallsForRecovery, WithdrawsRecovery);
    NothingHolds(HoldsBoot, EndsWindow);
    NothingHolds(Bonds, Unbonds);
  }

  /**
   * Over every history the access point is required if and only if there is no
   * valid configuration, the recovery window is open, or recovery was called for
   * and nothing has withdrawn it; the station is required if and only if there
   * is a valid configuration.
   */
  lemma AccessPointIff(events: seq<Stamped>)
    requires events != []
    ensures Run(events).apRequired <==> !Configured(events) || WindowOpen(events) || RecoveryCalledFor(events)
    ensures Run(events).staRequired <==> Configured(events)
  {
    RunAgrees(events);
    hide Reduce, Configured, WindowOpen, RecoveryCalledFor;
    ConnectedIsConsistent(events);
  }

  /** Over every history the connections, the proof of the settings and the bond are what the events tell of. */
  lemma ConnectionsIff(events: seq<Stamped>)
    ensures Run(events).wifi <==> OnWifi(events)
    ensures Run(events).mqtt <==> OnBroker(events)
    ensures Run(events).verified <==> ProvenSettings(events)
    ensures Run(events).bond <==> Bonded(events)
  {
    RunAgrees(events);
    hide Run, OnWifi, OnBroker, ProvenSettings, Bonded;
  }
}
