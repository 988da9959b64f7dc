/** When the relay connects, publishes and queues, told from what happened before. */
module RelayHistory {

  // Each flag of the relay is a question about the past: a step that raised it,
  // and none since that lowered it.

  import opened MqttRelay
  import opened RelayOperations
  import opened RelayItems
  import opened Histories
  import opened Wrappers

  ghost predicate Connecting(past: seq<Step>, step: Step) {
    Handles(Run(past), step, Connected)
  }

  ghost predicate Disconnecting(past: seq<Step>, step: Step) {
    Disconnects(Run(past), step)
  }

  /** The current client reported its connection, and neither it nor the relay ended it. */
  ghost predicate OnBroker(steps: seq<Step>) {
    Holds(steps, Connecting, Disconnecting)
  }

  ghost predicate Refreshed(past: seq<Step>, step: Step) {
    RefreshEnds(Run(past), step)
  }

  ghost predicate RefreshOwed(steps: seq<Step>) {
    Holds(steps, Connecting, Refreshed)
  }

  predicate WifiComes(past: seq<Step>, step: Step) {
    step == SetWifi(true)
  }

  ghost predicate WifiGoes(past: seq<Step>, step: Step) {
    step == SetWifi(false) || Executes(Run(past), step, Reset)
  }

  ghost predicate WifiUp(steps: seq<Step>) {
    Holds(steps, WifiComes, WifiGoes)
  }

  ghost predicate Making(past: seq<Step>, step: Step) {
    MakesClient(Run(past), step)
  }

  ghost predicate GivingUp(past: seq<Step>, step: Step) {
    GivesClientUp(Run(past), step)
  }

  ghost predicate HasClient(steps: seq<Step>) {
    Holds(steps, Making, GivingUp)
  }

  ghost predicate TurningAway(past: seq<Step>, step: Step) {
    GivingUp(past, step) || Silences(Run(past), step)
  }

  /** A client was made, and no reconfiguration or teardown has begun to turn observers away. */
  ghost predicate Welcoming(steps: seq<Step>) {
    Holds(steps, Making, TurningAway)
  }

  ghost predicate Permitting(past: seq<Step>, step: Step) {
    Permits(Run(past), step)
  }

  ghost predicate Forbidding(past: seq<Step>, step: Step) {
    Forbids(Run(past), step)
  }

  ghost predicate Permitted(steps: seq<Step>) {
    Holds(steps, Permitting, Forbidding)
  }

  ghost predicate Starting(past: seq<Step>, step: Step) {
    StartsClient(Run(past), step)
  }

  ghost predicate Halting(past: seq<Step>, step: Step) {
    HaltsClient(Run(past), step)
  }

  ghost predicate ClientRuns(steps: seq<Step>) {
    Holds(steps, Starting, Halting)
  }

  // ---------- Every interleaving ----------

  ghost predicate Agrees(f: Flags, steps: seq<Step>) {
    && (f.connected <==> OnBroker(steps)) && (f.refresh <==> RefreshOwed(steps)) && (f.wifi <==> WifiUp(steps))
    && (f.client.Some? <==> HasClient(steps)) && (f.accepting <==> Welcoming(steps))
    && (f.allowed <==> Permitted(steps)) && (f.started <==> ClientRuns(steps))
  }

  lemma ConnectionStep(past: seq<Step>, step: Step)
    ensures OnBroker(past + [step]) <==> Connecting(past, step) || (OnBroker(past) && !Disconnecting(past, step))
    ensures RefreshOwed(past + [step]) <==> Connecting(past, step) || (RefreshOwed(past) && !Refreshed(past, step))
    ensures WifiUp(past + [step]) <==> WifiComes(past, step) || (WifiUp(past) && !WifiGoes(past, step))
  {
    HoldsStep(past, step, Connecting, Disconnecting);
    HoldsStep(past, step, Connecting, Refreshed);
    HoldsStep(past, step, WifiComes, WifiGoes);
  }

  lemma PermissionStep(past: seq<Step>, step: Step)
    ensures HasClient(past + [step]) <==> Making(past, step) || (HasClient(past) && !GivingUp(past, step))
    ensures Welcoming(past + [step]) <==> Making(past, step) || (Welcoming(past) && !TurningAway(past, step))
    ensures Permitted(past + [step]) <==> Permitting(past, step) || (Permitted(past) && !Forbidding(past, step))
    ensures ClientRuns(past + [step]) <==> Starting(past, step) || (ClientRuns(past) && !Halting(past, step))
  {
    HoldsStep(past, step, Making, GivingUp);
    HoldsStep(past, step, Making, TurningAway);
    HoldsStep(past, step, Permitting, Forbidding);
    HoldsStep(past, step, Starting, Halting);
  }

  lemma StepAgrees(past: seq<Step>, step: Step)
    requires Agrees(Run(past).flags, past)
    ensures Agrees(Next(Run(past), step).flags, past + [step])
  {
    hide Run, Next, OnBroker, RefreshOwed, WifiUp, HasClient, Welcoming, Permitted, ClientRuns;
    hide Handles, Disconnects, RefreshEnds, Executes, MakesClient, GivesClientUp, Silences, Permits, Forbids, StartsClient, HaltsClient;
    ConnectionStep(past, step);
    PermissionStep(past, step);
    ConnectionAfter(Run(past), step);
    PermissionAfter(Run(past), step);
  }

  lemma NothingAgrees()
    ensures Agrees(BEGIN.flags, [])
  {
    NothingHolds(Connecting, Disconnecting);
    NothingHolds(Connecting, Refreshed);
    NothingHolds(WifiComes, WifiGoes);
    NothingHolds(Making, GivingUp);
    NothingHolds(Making, TurningAway);
    NothingHolds(Permitting, Forbidding);
    NothingHolds(Starting, Halting);
  }

  lemma {:induction false} FlagsAgree(steps: seq<Step>)
    ensures Agrees(Run(steps).flags, steps)
    decreases |steps|
  {
    hide Next, Agrees;
    if steps == [] {
      NothingAgrees();
    } else {
      var past, step := steps[..|steps| - 1], steps[|steps| - 1];
      FlagsAgree(past);
      StepAgrees(past, step);
      assert steps == past + [step];
    }
  }

  /** In every interleaving the connection, the refresh owed and Wi-Fi are what was reported last. */
  lemma ConnectionIff(steps: seq<Step>)
    ensures var f := Run(steps).flags;
            (f.connected <==> OnBroker(steps)) && (f.refresh <==> RefreshOwed(steps)) && (f.wifi <==> WifiUp(steps))
  {
    FlagsAgree(steps);
    hide Run;
  }

  /** In every interleaving the permissions are those of the last statements that gave or took them. */
  lemma PermissionIff(steps: seq<Step>)
    ensures var f := Run(steps).flags;
            && (f.client.Some? <==> HasClient(steps)) && (f.accepting <==> Welcoming(steps))
            && (f.allowed <==> Permitted(steps)) && (f.started <==> ClientRuns(steps))
  {
    FlagsAgree(steps);
    hide Run;
  }

  // ---------- What observers and publishing threads get ----------

  /** In every interleaving a publish call begins if and only if there is a client and publishing is permitted. */
  lemma CallBeginsIff(steps: seq<Step>)
    ensures var s, t := Run(steps), Next(Run(steps), Enter);
            && (t.calls.inFlight == s.calls.inFlight + 1 <==> HasClient(steps) && Permitted(steps))
            && (t.calls.inFlight == s.calls.inFlight + 1 ==>
                  t.calls.inside == s.calls.inside + multiset{s.flags.client.value})
  {
    FlagsAgree(steps);
    hide Run, HasClient, Permitted;
  }

  /** Observers are welcome, and Wi-Fi and the broker are there. */
  ghost predicate Open(steps: seq<Step>) {
    Welcoming(steps) && WifiUp(steps) && OnBroker(steps)
  }

  /**
   * In every interleaving an observer builds an item if and only if the relay is
   * open and the policy publishes; the item is accepted if and only if both are
   * still so and fewer than eight are queued.
   */
  lemma ObserverIsServedIff(steps: seq<Step>, item: nat, publish: bool)
    ensures var s, t := Run(steps), Next(Run(steps), BeginObserving(publish));
            t.items.built == s.items.built + 1 <==> Open(steps) && publish
    ensures var s, t := Run(steps), Next(Run(steps), EndObserving(item, publish));
            item in s.items.hands && s.flags.hasQueue ==>
              && (t.items.accepted == s.items.accepted + 1 <==> Open(steps) && publish && |s.items.queue| < 8)
              && (t.items.freed[item] == s.items.freed[item] + 1 <==> !(Open(steps) && publish && |s.items.queue| < 8))
  {
    FlagsAgree(steps);
    hide Run, Welcoming, WifiUp, OnBroker;
  }
}
