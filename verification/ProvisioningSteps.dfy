/** What one event does to each part of the provisioning state. */
module ProvisioningSteps {

  import opened ProvisioningState

  predicate IsBoot(event: Event) {
    event == BootNoConfig || event == BootValidConfig
  }

  predicate LeavesWifi(event: Event) {
    IsBoot(event) || event == WifiDisconnected || event == WifiTimeout
  }

  // ---------- The connections ----------

  /** Trouble with the broker changes nothing but the broker connection, the refusals and the need of recovery. */
  predicate KeepsOthers(s: State, t: State) {
    && t.validConfig == s.validConfig && t.wifi == s.wifi && !t.mqtt && t.verified == s.verified
    && t.recoveryWindow == s.recoveryWindow && t.recoveryDeadline == s.recoveryDeadline && t.bond == s.bond
  }

  lemma FailureKeepsOthers(s: State, now: nat)
    ensures KeepsOthers(s, Failed(s, now))
  {
    hide EndsRefusedAttempt;
  }

  lemma RefusalKeepsOthers(s: State, now: nat)
    ensures KeepsOthers(s, Rejected(s, now))
  {
  }

  lemma ConnectionsAfter(s: State, event: Event, now: nat)
    ensures var t := Applied(s, event, now);
            && (t.validConfig <==> event == BootValidConfig || (s.validConfig && event != BootNoConfig))
            && (t.wifi <==> event == WifiConnected || (s.wifi && !LeavesWifi(event)))
            && (t.mqtt <==> || (event == MqttConnected && s.wifi)
                            || (s.mqtt && !LeavesWifi(event)
                                && event != MqttFailed && event != MqttRejected && event != MqttConnected))
  {
    hide Failed, Rejected;
    match event
    case MqttFailed => FailureKeepsOthers(s, now);
    case MqttRejected => RefusalKeepsOthers(s, now);
    case _ =>
  }

  lemma ProofAfter(s: State, event: Event, now: nat)
    ensures Applied(s, event, now).verified
        <==> || (event == MqttConnected && s.wifi) || (event == MqttSettingsVerified && s.validConfig)
             || (s.verified && !IsBoot(event) && event != MqttSettingsVerified)
  {
    hide Failed, Rejected;
    match event
    case MqttFailed => FailureKeepsOthers(s, now);
    case MqttRejected => RefusalKeepsOthers(s, now);
    case _ =>
  }

  lemma BondAfter(s: State, event: Event, now: nat)
    ensures Applied(s, event, now).bond <==> event == BondPresent || (s.bond && event != BondRemoved)
  {
    hide Failed, Rejected;
    match event
    case MqttFailed => FailureKeepsOthers(s, now);
    case MqttRejected => RefusalKeepsOthers(s, now);
    case _ =>
  }

  // ---------- The need of recovery ----------

  /** A row of refusals of proven settings: when it began, its last one, and whether it lasted ten minutes. */
  datatype Row = NoRow | Row(since: nat, last: nat, long: bool)

  ghost predicate RowAgrees(r: Refusals, row: Row) {
    match row
    case NoRow => !r.rejecting && !r.recovery
    case Row(since, last, long) => r == Refusals(true, long, since, last)
  }

  /** A failure of proven settings over Wi-Fi that does not follow a refusal within three seconds. */
  predicate Unpaired(wifi: bool, proven: bool, row: Row, event: Event, now: nat) {
    event == MqttFailed && proven && wifi && !(row.Row? && row.last <= now <= row.last + 3000)
  }

  /** A call for recovery, given the connections and the row of refusals before and after. */
  predicate Calls(wifi: bool, proven: bool, row: Row, row': Row, event: Event, now: nat) {
    || event == WifiTimeout
    || ((event == MqttFailed || event == MqttRejected) && !proven)
    || (event == MqttRejected && proven && wifi && row'.Row? && row'.long)
    || (Unpaired(wifi, proven, row, event, now) && row'.Row? && row'.long)
  }

  predicate Withdraws(wifi: bool, proven: bool, row: Row, event: Event, now: nat) {
    || IsBoot(event) || (event == MqttConnected && wifi)
    || (event == MqttRejected && proven && wifi)
    || Unpaired(wifi, proven, row, event, now)
  }

  function RowIn(r: Refusals): Row {
    if r.rejecting then Row(r.since, r.last, r.recovery) else NoRow
  }

  lemma FailureChanges(s: State, now: nat)
    ensures var t := Failed(s, now);
            if !s.verified then t.recoveryRequired
            else if !s.wifi || EndsRefusedAttempt(s, now)
            then t.recoveryRequired == s.recoveryRequired && t.refusals == s.refusals
            else
              && t.recoveryRequired == s.refusals.recovery
              && t.refusals == if s.refusals.recovery then s.refusals else NO_REFUSALS
  {
    hide EndsRefusedAttempt;
  }

  lemma FailureAfter(s: State, row: Row, now: nat)
    requires RowAgrees(s.refusals, row)
    ensures var t := Failed(s, now);
            t.recoveryRequired
            <==> || Calls(s.wifi, s.verified, row, RowIn(t.refusals), MqttFailed, now)
                 || (s.recoveryRequired && !Withdraws(s.wifi, s.verified, row, MqttFailed, now))
  {
    FailureChanges(s, now);
    hide Failed;
  }

  lemma RefusalAfter(s: State, row: Row, now: nat)
    requires RowAgrees(s.refusals, row)
    ensures var t := Rejected(s, now);
            t.recoveryRequired
            <==> || Calls(s.wifi, s.verified, row, RowIn(t.refusals), MqttRejected, now)
                 || (s.recoveryRequired && !Withdraws(s.wifi, s.verified, row, MqttRejected, now))
  {
  }

  lemma RecoveryAfter(s: State, row: Row, event: Event, now: nat)
    requires RowAgrees(s.refusals, row)
    ensures var t := Applied(s, event, now);
            t.recoveryRequired
            <==> || Calls(s.wifi, s.verified, row, RowIn(t.refusals), event, now)
                 || (s.recoveryRequired && !Withdraws(s.wifi, s.verified, row, event, now))
  {
    hide Failed, Rejected, RowAgrees;
    match event
    case MqttRejected => RefusalAfter(s, row, now);
    case MqttFailed => FailureAfter(s, row, now);
    case _ =>
  }

  // ---------- The recovery window ----------

  /** Ten minutes on, or the end of time. */
  function TenMinutesAfter(now: nat): nat {
    if now + 600000 > MAX_TIME then MAX_TIME else now + 600000
  }

  lemma WindowAfter(s: State, event: Event, now: nat)
    ensures Applied(s, event, now).recoveryWindow
        <==> || event == BootHeld
             || (s.recoveryWindow && !IsBoot(event) && !(event == PortalIdleTimeout && now >= s.recoveryDeadline))
  {
    hide Failed, Rejected;
    match event
    case MqttFailed => FailureKeepsOthers(s, now);
    case MqttRejected => RefusalKeepsOthers(s, now);
    case _ =>
  }

  lemma DeadlineAfter(s: State, event: Event, now: nat)
    ensures var t := Applied(s, event, now);
            t.recoveryWindow ==>
              t.recoveryDeadline == if event == BootHeld then TenMinutesAfter(now) else s.recoveryDeadline
  {
    hide Failed, Rejected;
    match event
    case MqttFailed => FailureKeepsOthers(s, now);
    case MqttRejected => RefusalKeepsOthers(s, now);
    case _ =>
  }
}
