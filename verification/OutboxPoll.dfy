/** The worker's poll of the outbox, which the fence around the client does not count. */
module OutboxPoll {

  // The worker copies the client pointer in one critical section and asks that
  // client for its outbox size later. A teardown waits for the worker once,
  // before it forbids publishing, so a connection reported in between can send
  // the worker back to a client that is about to be destroyed.

  import opened MqttRelay
  import opened Wrappers
  import RelayItems

  // ---------- What the statements ahead leave to the worker ----------

  /** The client is destroyed ahead, and nothing before that cuts the connection. */
  predicate NeedsCut(life: seq<Command>) {
    && life != [] && life[0] != DropAll && life[0] != Install
    && (life[0] == DestroyClient || NeedsCut(life[1..]))
  }

  /** The client is destroyed ahead, and nothing before that waits for the worker. */
  predicate NeedsIdle(life: seq<Command>) {
    && life != [] && life[0] != AwaitIdle
    && (life[0] == DestroyClient || NeedsIdle(life[1..]))
  }

  /** The worker is waited for before the client is destroyed or the operation ends. */
  predicate Waits(life: seq<Command>) {
    && life != [] && life[0] != DestroyClient
    && (life[0] == AwaitIdle || Waits(life[1..]))
  }

  /** The client pointer changes ahead, and nothing before that stops the client. */
  predicate NeedsStopped(life: seq<Command>) {
    && life != [] && life[0] != StopClient && life[0] != DestroyClient
    && (life[0] == ClearClient || life[0] == Reset || life[0] == Install || NeedsStopped(life[1..]))
  }

  /** Publishing is allowed ahead for a client that is there already. */
  predicate NeedsAccepting(life: seq<Command>) {
    && life != [] && life[0] != Install
    && (life[0] == Allow || NeedsAccepting(life[1..]))
  }

  predicate Orderly(life: seq<Command>) {
    life != [] ==>
      && (life[0] == DropAll ==> Waits(life[1..]))
      && (life[0] == Allow || life[0] == Install ==> !NeedsCut(life[1..]))
      && (life[0] == StartClient ==> !NeedsStopped(life[1..]))
      && (life[0] == ClearClient || life[0] == Reset ==> !NeedsAccepting(life[1..]))
      && (life[0] == Dismiss ==> life[1..] != [] && life[1] == AwaitGone)
      && (NeedsIdle(life) ==> NeedsCut(life))
      && Orderly(life[1..])
  }

  /** An operation can begin in any state. */
  predicate Apt(life: seq<Command>) {
    Orderly(life) && !NeedsCut(life) && !NeedsIdle(life)
  }

  /** What a statement in front changes. */
  lemma InFront(c: Command, rest: seq<Command>)
    ensures NeedsCut([c] + rest) <==> c != DropAll && c != Install && (c == DestroyClient || NeedsCut(rest))
    ensures NeedsIdle([c] + rest) <==> c != AwaitIdle && (c == DestroyClient || NeedsIdle(rest))
    ensures Waits([c] + rest) <==> c != DestroyClient && (c == AwaitIdle || Waits(rest))
    ensures NeedsStopped([c] + rest) <==>
            && c != StopClient && c != DestroyClient
            && (c == ClearClient || c == Reset || c == Install || NeedsStopped(rest))
    ensures NeedsAccepting([c] + rest) <==> c != Install && (c == Allow || NeedsAccepting(rest))
  {
    First(c, rest);
  }

  lemma PrefixIsApt(c: Command, rest: seq<Command>)
    requires Apt(rest) && c != DropAll && c != DestroyClient
    requires c == StartClient ==> !NeedsStopped(rest)
    requires c == ClearClient || c == Reset ==> !NeedsAccepting(rest)
    requires c == Dismiss ==> rest != [] && rest[0] == AwaitGone
    ensures Apt([c] + rest)
    ensures NeedsStopped([c] + rest) <==>
            && c != StopClient
            && (c == ClearClient || c == Reset || c == Install || NeedsStopped(rest))
    ensures NeedsAccepting([c] + rest) <==> c != Install && (c == Allow || NeedsAccepting(rest))
  {
    First(c, rest);
    InFront(c, rest);
    assert Orderly([c] + rest) by {
      hide NeedsCut, NeedsIdle, Waits, NeedsStopped, NeedsAccepting;
    }
  }

  /** Statements that stop a client keep what follows them orderly. */
  lemma OrderlyInFront(c: Command, rest: seq<Command>)
    requires Orderly(rest) && c in {AwaitIdle, Forbid, AwaitDrained, StopClient, DestroyClient, DropAll}
    requires c == DropAll ==> Waits(rest)
    requires NeedsIdle(rest) ==> NeedsCut(rest)
    ensures Orderly([c] + rest) && (NeedsIdle([c] + rest) && c != DropAll ==> NeedsCut([c] + rest))
  {
    First(c, rest);
    if c == DropAll {
      WaitingIsEnough(rest);
    }
  }

  lemma {:induction false} WaitingIsEnough(life: seq<Command>)
    requires Waits(life)
    ensures !NeedsIdle(life)
  {
    if life[0] != AwaitIdle {
      WaitingIsEnough(life[1..]);
    }
  }

  lemma StopThenIsApt(client: bool, rest: seq<Command>)
    requires Orderly(rest) && (NeedsIdle(rest) ==> NeedsCut(rest))
    ensures Apt(StopThen(client, rest))
    ensures client ==> !NeedsStopped(StopThen(client, rest))
    ensures NeedsStopped(StopThen(client, rest)) ==> NeedsStopped(rest)
    ensures NeedsAccepting(StopThen(client, rest)) <==> NeedsAccepting(rest)
  {
    hide NeedsCut, NeedsIdle, Waits, NeedsStopped, NeedsAccepting, Orderly;
    var l4 := if client then [StopClient] + rest else rest;
    InFront(StopClient, rest);
    OrderlyInFront(StopClient, rest);
    InFront(AwaitDrained, l4);
    OrderlyInFront(AwaitDrained, l4);
    var l3 := [AwaitDrained] + l4;
    InFront(Forbid, l3);
    OrderlyInFront(Forbid, l3);
    var l2 := [Forbid] + l3;
    InFront(AwaitIdle, l2);
    OrderlyInFront(AwaitIdle, l2);
    var l1 := [AwaitIdle] + l2;
    InFront(DropAll, l1);
    OrderlyInFront(DropAll, l1);
    WaitingIsEnough(l1);
  }

  lemma DestroyThenIsApt(rest: seq<Command>)
    requires Apt(rest)
    ensures Apt(DestroyThen(rest)) && !NeedsStopped(DestroyThen(rest))
    ensures NeedsAccepting(DestroyThen(rest)) <==> NeedsAccepting(rest)
  {
    hide NeedsCut, NeedsIdle, Waits, NeedsStopped, NeedsAccepting, Orderly, StopThen;
    InFront(DestroyClient, rest);
    OrderlyInFront(DestroyClient, rest);
    InFront(AwaitDrained, [DestroyClient] + rest);
    OrderlyInFront(AwaitDrained, [DestroyClient] + rest);
    StopThenIsApt(true, [AwaitDrained] + ([DestroyClient] + rest));
  }

  lemma EndingsAreApt()
    ensures Apt([Dismiss, AwaitGone, Reset]) && !NeedsAccepting([Dismiss, AwaitGone, Reset])
    ensures Apt(TERMINAL) && !NeedsAccepting(TERMINAL)
  {
    hide Apt, NeedsStopped, NeedsAccepting;
    NothingIsApt();
    assert [Reset] == [Reset] + [] && [DeleteQueue] == [DeleteQueue] + [];
    assert [AwaitGone, Reset] == [AwaitGone] + [Reset] && [Dismiss, AwaitGone, Reset] == [Dismiss] + [AwaitGone, Reset];
    PrefixIsApt(Reset, []);
    PrefixIsApt(AwaitGone, [Reset]);
    PrefixIsApt(Dismiss, [AwaitGone, Reset]);
    var t2 := [AwaitGone, DeleteQueue];
    assert t2 == [AwaitGone] + [DeleteQueue] && [Dismiss, AwaitGone, DeleteQueue] == [Dismiss] + t2;
    assert [AwaitDrained, Dismiss, AwaitGone, DeleteQueue] == [AwaitDrained] + [Dismiss, AwaitGone, DeleteQueue];
    assert TERMINAL == [ClearClient] + [AwaitDrained, Dismiss, AwaitGone, DeleteQueue];
    PrefixIsApt(DeleteQueue, []);
    PrefixIsApt(AwaitGone, [DeleteQueue]);
    PrefixIsApt(Dismiss, t2);
    PrefixIsApt(AwaitDrained, [Dismiss, AwaitGone, DeleteQueue]);
    PrefixIsApt(ClearClient, [AwaitDrained, Dismiss, AwaitGone, DeleteQueue]);
  }

  lemma NothingIsApt()
    ensures Apt([]) && !NeedsStopped([]) && !NeedsAccepting([])
  {
  }

  lemma StartIsApt()
    ensures Apt([EnsureWorker, Allow, StartClient]) && !NeedsStopped([EnsureWorker, Allow, StartClient])
    ensures Apt([EnsureWorker, Allow]) && !NeedsStopped([EnsureWorker, Allow])
    ensures Apt([Install, EnsureWorker, Allow, StartClient])
    ensures !NeedsAccepting([Install, EnsureWorker, Allow, StartClient])
  {
    hide Apt, NeedsStopped, NeedsAccepting;
    NothingIsApt();
    assert [StartClient] == [StartClient] + [] && [Allow] == [Allow] + [];
    assert [Allow, StartClient] == [Allow] + [StartClient] && [EnsureWorker, Allow] == [EnsureWorker] + [Allow];
    assert [EnsureWorker, Allow, StartClient] == [EnsureWorker] + [Allow, StartClient];
    assert [Install, EnsureWorker, Allow, StartClient] == [Install] + [EnsureWorker, Allow, StartClient];
    PrefixIsApt(StartClient, []);
    PrefixIsApt(Allow, [StartClient]);
    PrefixIsApt(EnsureWorker, [Allow, StartClient]);
    PrefixIsApt(Install, [EnsureWorker, Allow, StartClient]);
    PrefixIsApt(Allow, []);
    PrefixIsApt(EnsureWorker, [Allow]);
  }

  lemma ReconfiguredIsApt(extent: Extent)
    ensures Apt(Reconfigured(extent)) && !NeedsAccepting(Reconfigured(extent))
  {
    hide Apt, NeedsStopped, NeedsAccepting, DestroyThen;
    EndingsAreApt();
    NothingIsApt();
    match extent
    case NoClient =>
    case NotStarted =>
      assert [Install] == [Install] + [];
      PrefixIsApt(Install, []);
    case Started => StartIsApt();
    case StartFailed(hasWorker) =>
      DestroyThenIsApt(TERMINAL);
      var failed := DestroyThen(TERMINAL);
      PrefixIsApt(Allow, failed);
      PrefixIsApt(EnsureWorker, [Allow] + failed);
      PrefixIsApt(Install, [EnsureWorker] + ([Allow] + failed));
      PrefixIsApt(Install, failed);
  }

  /** Every operation is orderly, stops a client it clears, and allows publishing only for a client it found or made. */
  lemma ProgramIsApt(s: System, op: Operation)
    ensures Apt(Program(s, op))
    ensures NeedsStopped(Program(s, op)) ==> s.flags.client.None?
    ensures NeedsAccepting(Program(s, op)) ==> op.OpStart? && s.flags.client.Some?
  {
    hide Apt, NeedsStopped, NeedsAccepting, DestroyThen, Reconfigured;
    EndingsAreApt();
    NothingIsApt();
    match op
    case OpStart(_) => StartIsApt();
    case OpStop =>
      StopIsApt(s.flags.client.Some?);
    case OpDeinit => DestroyThenIsApt([Dismiss, AwaitGone, Reset]);
    case OpReconfigure(extent) =>
      ReconfiguredIsApt(extent);
      var rest := [ClearClient] + Reconfigured(extent);
      PrefixIsApt(ClearClient, Reconfigured(extent));
      DestroyThenIsApt(rest);
  }

  lemma StopIsApt(client: bool)
    ensures Apt(StopThen(client, [])) && !NeedsStopped(StopThen(client, [])) && !NeedsAccepting(StopThen(client, []))
  {
    StopThenIsApt(client, []);
  }

  lemma ClearsInFront(c: Command, rest: seq<Command>)
    ensures Clears([c] + rest) <==>
            && c != Allow && c != Install && c != EnsureWorker && c != StartClient
            && (c == ClearClient || c == Reset || Clears(rest))
  {
    First(c, rest);
  }

  lemma DestroyThenClears(rest: seq<Command>)
    requires Clears(rest)
    ensures Clears(DestroyThen(rest))
  {
    hide Clears;
    var l6 := [DestroyClient] + rest;
    ClearsInFront(DestroyClient, rest);
    var l5 := [AwaitDrained] + l6;
    ClearsInFront(AwaitDrained, l6);
    var l4 := [StopClient] + l5;
    ClearsInFront(StopClient, l5);
    ClearsInFront(AwaitDrained, l4);
    ClearsInFront(Forbid, [AwaitDrained] + l4);
    ClearsInFront(AwaitIdle, [Forbid] + ([AwaitDrained] + l4));
    ClearsInFront(DropAll, [AwaitIdle] + ([Forbid] + ([AwaitDrained] + l4)));
  }

  /** Teardown and reconfiguration give up the client they find. */
  lemma ProgramClears(s: System, op: Operation)
    requires s.flags.client.Some? && (op.OpDeinit? || op.OpReconfigure?)
    ensures Clears(Program(s, op))
  {
    hide DestroyThen, Reconfigured, Clears, Fit;
    EndingsFit();
    match op
    case OpDeinit =>
      DestroyThenClears([Dismiss, AwaitGone, Reset]);
    case OpReconfigure(extent) =>
      ClearsInFront(ClearClient, Reconfigured(extent));
      DestroyThenClears([ClearClient] + Reconfigured(extent));
  }

  // ---------- Events, flags and the worker ----------

  /**
   * Only a started client reports events, publishing is allowed only while
   * observers are, a silenced client is on its way out, and a worker is told to
   * end only where its end is awaited.
   */
  ghost predicate Watched(s: System) {
    && Orderly(s.life)
    && (s.event.Some? ==> s.flags.started)
    && (s.flags.started ==> s.flags.client.Some?)
    && (NeedsStopped(s.life) ==> !s.flags.started)
    && (s.flags.allowed ==> s.flags.accepting)
    && (NeedsAccepting(s.life) ==> s.flags.accepting)
    && (s.flags.client.Some? && !s.flags.accepting ==> Clears(s.life))
    && (s.worker.task && !s.worker.running ==> s.life != [] && s.life[0] == AwaitGone)
    && s.calls.stale <= s.calls.destroyed
  }

  lemma ProceedKeepsWatched(s: System)
    requires Watched(s) && s.life != []
    ensures Watched(Proceeded(s))
  {
    hide RelayItems.AllDropped, RelayItems.Forgotten, NeedsCut, NeedsIdle, Waits;
    match s.life[0]
    case DropAll => assert Watched(Proceeded(s));
    case AwaitIdle => assert Watched(Proceeded(s));
    case Forbid => assert Watched(Proceeded(s));
    case AwaitDrained => assert Watched(Proceeded(s));
    case StopClient => assert Watched(Proceeded(s));
    case DestroyClient => assert Watched(Proceeded(s));
    case ClearClient => assert Watched(Proceeded(s));
    case Install => assert Watched(Proceeded(s));
    case EnsureWorker => assert Watched(Proceeded(s));
    case Allow => assert Watched(Proceeded(s));
    case StartClient => assert Watched(Proceeded(s));
    case Dismiss => assert Watched(Proceeded(s));
    case AwaitGone => assert Watched(Proceeded(s));
    case DeleteQueue => assert Watched(Proceeded(s));
    case Reset => assert Watched(Proceeded(s));
  }

  lemma BeginningKeepsWatched(s: System, op: Operation)
    requires Watched(s)
    ensures Watched(Begun(s, op))
  {
    hide Program, Orderly, NeedsStopped, NeedsAccepting;
    ProgramIsApt(s, op);
    if s.flags.client.Some? && op.OpReconfigure? {
      ProgramClears(s, op);
    }
  }

  lemma StepKeepsWatched(s: System, step: Step)
    requires Watched(s)
    ensures Watched(Next(s, step))
  {
    hide Program, Proceeded, Begun, Orderly, NeedsStopped, NeedsAccepting, RelayItems.AllDropped,
         RelayItems.Acknowledged, RelayItems.Settled, RelayItems.Taken, RelayItems.Admitted, RelayItems.Built;
    match step
    case Operate(op) => BeginningKeepsWatched(s, op);
    case Proceed =>
      if s.life != [] {
        ProceedKeepsWatched(s);
      }
    case Init =>
      if s.life == [] {
        EmptyIsOrderly();
      }
    case Handle => assert Watched(Next(s, Handle));
    case Wake => assert Watched(Next(s, Wake));
    case Poll => assert Watched(Next(s, Poll));
    case Arrive(event) => assert Watched(Next(s, step));
    case _ =>
  }

  lemma EmptyIsOrderly()
    ensures Orderly([]) && !NeedsStopped([]) && !NeedsAccepting([]) && !Clears([])
  {
  }

  lemma BeginIsWatched()
    ensures Watched(BEGIN)
  {
  }

  lemma {:induction false} WatchedAlways(steps: seq<Step>)
    ensures Watched(Run(steps))
    decreases |steps|
  {
    hide Next, Watched;
    if steps == [] {
      BeginIsWatched();
    } else {
      WatchedAlways(steps[..|steps| - 1]);
      StepKeepsWatched(Run(steps[..|steps| - 1]), steps[|steps| - 1]);
    }
  }

  // ---------- Without a late connection every poll is safe ----------

  /** A connection is reported after a teardown cut the old one, while publishing is still allowed. */
  ghost predicate LateConnection(s: System, step: Step) {
    step.Handle? && s.event == Some(Connected) && s.flags.allowed && NeedsCut(s.life)
  }

  ghost predicate NoLateConnection(steps: seq<Step>)
    decreases |steps|
  {
    steps == []
    || (var before, step := steps[..|steps| - 1], steps[|steps| - 1];
        NoLateConnection(before) && !LateConnection(Run(before), step))
  }

  ghost predicate PollSound(s: System) {
    && (NeedsCut(s.life) ==> !s.flags.connected || !s.flags.allowed)
    && (NeedsIdle(s.life) ==> !s.worker.point.Polling?)
    && (s.worker.point.Polling? ==> s.worker.point.client !in s.calls.destroyed)
    && s.calls.stale == {}
  }

  lemma ProceedKeepsPolls(s: System)
    requires Invariant(s) && Watched(s) && PollSound(s) && s.life != []
    ensures PollSound(Proceeded(s))
  {
    hide RelayItems.AllDropped, RelayItems.Forgotten, RelayItems.Conserved, FenceSound, Waits, NeedsStopped,
         NeedsAccepting, Clears;
    match s.life[0]
    case DropAll => assert PollSound(Proceeded(s));
    case AwaitIdle => assert PollSound(Proceeded(s));
    case Forbid => assert PollSound(Proceeded(s));
    case AwaitDrained => assert PollSound(Proceeded(s));
    case StopClient => assert PollSound(Proceeded(s));
    case DestroyClient => assert PollSound(Proceeded(s));
    case ClearClient => assert PollSound(Proceeded(s));
    case Install => assert PollSound(Proceeded(s));
    case EnsureWorker => assert PollSound(Proceeded(s));
    case Allow => assert PollSound(Proceeded(s));
    case StartClient => assert PollSound(Proceeded(s));
    case Dismiss => assert PollSound(Proceeded(s));
    case AwaitGone => assert PollSound(Proceeded(s));
    case DeleteQueue => assert PollSound(Proceeded(s));
    case Reset => assert PollSound(Proceeded(s));
  }

  lemma StepKeepsPolls(s: System, step: Step)
    requires Invariant(s) && Watched(s) && PollSound(s) && !LateConnection(s, step)
    ensures PollSound(Next(s, step))
  {
    hide Program, Proceeded, Begun, NeedsCut, NeedsIdle, NeedsStopped, NeedsAccepting, Waits, Clears, FenceSound,
         RelayItems.Conserved, RelayItems.AllDropped, RelayItems.Acknowledged, RelayItems.Settled, RelayItems.Taken,
         RelayItems.Admitted, RelayItems.Built;
    match step
    case Operate(op) => BeginningKeepsPolls(s, op);
    case Proceed =>
      if s.life != [] {
        ProceedKeepsPolls(s);
      }
    case Init =>
      if s.life == [] {
        NothingNeedsCutting();
      }
    case Handle => assert PollSound(Next(s, Handle));
    case CopyClient =>
      OrderOf(s.life);
      assert PollSound(Next(s, CopyClient));
    case Poll => assert PollSound(Next(s, Poll));
    case Wake => assert PollSound(Next(s, Wake));
    case _ =>
  }

  lemma NothingNeedsCutting()
    ensures !NeedsCut([]) && !NeedsIdle([])
  {
  }

  lemma OrderOf(life: seq<Command>)
    requires Orderly(life)
    ensures NeedsIdle(life) ==> NeedsCut(life)
  {
  }

  lemma BeginningKeepsPolls(s: System, op: Operation)
    requires PollSound(s)
    ensures PollSound(Begun(s, op))
  {
    hide Program, NeedsCut, NeedsIdle;
    ProgramIsApt(s, op);
  }

  /**
   * In every interleaving in which no connection is reported between the cut of
   * a teardown and its ban on publishing, the worker never asks a destroyed
   * client for its outbox.
   */
  lemma {:induction false} PollsAreSafe(steps: seq<Step>)
    requires NoLateConnection(steps)
    ensures PollSound(Run(steps)) && Run(steps).calls.stale == {}
    decreases |steps|
  {
    hide Next, Invariant, Watched, LateConnection;
    if steps == [] {
      BeginPollsNothing();
    } else {
      var before, step := steps[..|steps| - 1], steps[|steps| - 1];
      PollsAreSafe(before);
      InvariantHolds(before);
      WatchedAlways(before);
      hide PollSound;
      StepKeepsPolls(Run(before), step);
      StaleOf(Run(steps));
    }
  }

  lemma BeginPollsNothing()
    ensures PollSound(BEGIN)
  {
  }

  lemma StaleOf(s: System)
    requires PollSound(s)
    ensures s.calls.stale == {}
  {
  }

  // ---------- A client on its way out without a race ----------

  /** No event or worker can lead to a poll of the client before it is destroyed, nor after. */
  ghost predicate Doomed(s: System, c: nat) {
    && c < s.calls.made && c !in s.calls.stale
    && (s.flags.client == Some(c) ==>
          && Clears(s.life)
          && (|| !s.flags.allowed
              || !s.worker.task
              || (&& s.event != Some(Connected) && !s.flags.started
                  && (!s.flags.connected || s.life[0] == DropAll))))
    && (s.worker.point == Polling(c) ==> c !in s.calls.destroyed && Waits(s.life))
  }

  lemma ProceedKeepsDoomed(s: System, c: nat)
    requires Invariant(s) && Watched(s) && Doomed(s, c) && s.life != []
    ensures Doomed(Proceeded(s), c)
  {
    hide RelayItems.AllDropped, RelayItems.Forgotten, RelayItems.Conserved, FenceSound, NeedsStopped,
         NeedsAccepting, NeedsCut, NeedsIdle;
    match s.life[0]
    case DropAll => assert Doomed(Proceeded(s), c);
    case AwaitIdle => assert Doomed(Proceeded(s), c);
    case Forbid => assert Doomed(Proceeded(s), c);
    case AwaitDrained => assert Doomed(Proceeded(s), c);
    case StopClient => assert Doomed(Proceeded(s), c);
    case DestroyClient => assert Doomed(Proceeded(s), c);
    case ClearClient => assert Doomed(Proceeded(s), c);
    case Install => assert Doomed(Proceeded(s), c);
    case EnsureWorker => assert Doomed(Proceeded(s), c);
    case Allow => assert Doomed(Proceeded(s), c);
    case StartClient => assert Doomed(Proceeded(s), c);
    case Dismiss => assert Doomed(Proceeded(s), c);
    case AwaitGone => assert Doomed(Proceeded(s), c);
    case DeleteQueue => assert Doomed(Proceeded(s), c);
    case Reset => assert Doomed(Proceeded(s), c);
  }

  lemma StepKeepsDoomed(s: System, step: Step, c: nat)
    requires Invariant(s) && Watched(s) && Doomed(s, c)
    ensures Doomed(Next(s, step), c)
  {
    hide Program, Proceeded, Begun, NeedsCut, NeedsIdle, NeedsStopped, NeedsAccepting, FenceSound, Orderly,
         RelayItems.Conserved, RelayItems.AllDropped, RelayItems.Acknowledged, RelayItems.Settled, RelayItems.Taken,
         RelayItems.Admitted, RelayItems.Built;
    match step
    case Operate(op) =>
      if s.life == [] {
        assert s.flags.client != Some(c) && s.worker.point != Polling(c);
        BegunKeepsRest(s, op);
      } else {
        assert Next(s, step) == s by { BegunOnlyIdle(s, op); }
      }
    case Proceed =>
      if s.life != [] {
        ProceedKeepsDoomed(s, c);
      }
    case Init => assert Doomed(Next(s, Init), c);
    case CopyClient =>
      CutsThenWaits(s.life);
      assert Doomed(Next(s, CopyClient), c);
    case Poll => assert Doomed(Next(s, Poll), c);
    case Wake => assert Doomed(Next(s, Wake), c);
    case Handle => EventKeepsDoomed(s, step, c);
    case Arrive(_) => EventKeepsDoomed(s, step, c);
    case _ =>
  }

  lemma EventKeepsDoomed(s: System, step: Step, c: nat)
    requires Watched(s) && Doomed(s, c) && (step.Handle? || step.Arrive?)
    ensures Doomed(Next(s, step), c)
  {
    hide Clears, Waits, Orderly, NeedsStopped, NeedsAccepting, RelayItems.AllDropped, RelayItems.Acknowledged;
    match step
    case Handle => assert Doomed(Next(s, Handle), c);
    case Arrive(_) => assert Doomed(Next(s, step), c);
  }

  lemma BegunKeepsRest(s: System, op: Operation)
    ensures Begun(s, op).worker == s.worker && Begun(s, op).calls == s.calls && Begun(s, op).flags.client == s.flags.client
  {
    hide Program;
  }

  lemma BegunOnlyIdle(s: System, op: Operation)
    requires s.life != []
    ensures Begun(s, op) == s
  {
  }

  lemma CutsThenWaits(life: seq<Command>)
    ensures Orderly(life) && life != [] && life[0] == DropAll ==> Waits(life)
  {
  }

  lemma {:induction false} DoomedForever(s: System, more: seq<Step>, c: nat)
    requires Invariant(s) && Watched(s) && Doomed(s, c)
    ensures Doomed(Follow(s, more), c)
    decreases |more|
  {
    hide Next, Invariant, Watched, Doomed;
    if more != [] {
      StepKeepsInvariant(s, more[0]);
      StepKeepsWatched(s, more[0]);
      StepKeepsDoomed(s, more[0], c);
      DoomedForever(Next(s, more[0]), more[1..], c);
    }
  }

  // ---------- Bringing everything to rest ----------

  lemma {:induction false} SoundOnceReached(s: System, t: System)
    requires Invariant(s) && Watched(s) && Reaches(s, t)
    ensures Invariant(t) && Watched(t)
  {
    hide Next, Invariant, Watched;
    var steps :| Unattended(steps) && Follow(s, steps) == t;
    SoundAfter(s, steps);
  }

  lemma {:induction false} SoundAfter(s: System, steps: seq<Step>)
    requires Invariant(s) && Watched(s)
    ensures Invariant(Follow(s, steps)) && Watched(Follow(s, steps))
    decreases |steps|
  {
    hide Next, Invariant, Watched;
    if steps != [] {
      StepKeepsInvariant(s, steps[0]);
      StepKeepsWatched(s, steps[0]);
      SoundAfter(Next(s, steps[0]), steps[1..]);
    }
  }

  /** The handler that is under way finishes. */
  lemma HandlerFinishes(s: System) returns (t: System)
    ensures Reaches(s, t) && t.event == None
    ensures t.life == s.life && t.worker == s.worker && t.calls == s.calls && t.fault == s.fault
    ensures t.flags == s.flags.(connected := t.flags.connected, refresh := t.flags.refresh)
  {
    hide RelayItems.Acknowledged, RelayItems.AllDropped;
    ReachesItself(s);
    ReachesNext(s, s, Handle);
    t := Next(s, Handle);
  }

  /** Whether nothing but the worker and what it did to items and polled clients changed. */
  ghost predicate WorkerMoved(s: System, t: System) {
    && t.life == s.life && t.flags == s.flags && t.event == s.event && t.fault == s.fault
    && t.calls == s.calls.(stale := t.calls.stale)
    && t.worker == s.worker.(point := t.worker.point, busy := t.worker.busy)
  }

  lemma WorkerTakes(s: System, t: System) returns (u: System)
    requires Reaches(s, t) && t.worker.point == Draining && !t.worker.busy && !t.flags.connected && WorkerMoved(s, t)
    ensures Reaches(s, u) && u.worker.point == Asleep && !u.worker.busy && WorkerMoved(s, u)
  {
    hide Reaches;
    ReachesNext(s, t, Take);
    u := Next(t, Take);
  }

  lemma WorkerSettles(s: System, t: System) returns (u: System)
    requires Reaches(s, t) && t.worker.point.Sent? && t.items.held != [] && !t.flags.connected && WorkerMoved(s, t)
    ensures Reaches(s, u) && u.worker.point == Asleep && !u.worker.busy && WorkerMoved(s, u)
  {
    hide Reaches, RelayItems.Settled;
    ReachesNext(s, t, Settle);
    u := WorkerTakes(s, Next(t, Settle));
  }

  lemma WorkerEndsRefresh(s: System, t: System) returns (u: System)
    requires Reaches(s, t) && t.worker.point == Refreshing && !t.flags.connected && WorkerMoved(s, t)
    ensures Reaches(s, u) && u.worker.point == Asleep && !u.worker.busy && WorkerMoved(s, u)
  {
    hide Reaches;
    ReachesNext(s, t, EndRefresh);
    u := WorkerTakes(s, Next(t, EndRefresh));
  }

  /** Without a connection the worker comes to rest. */
  lemma WorkerRests(s: System) returns (t: System)
    requires WorkerSound(s) && !s.flags.connected
    ensures Reaches(s, t) && WorkerMoved(s, t) && !t.worker.busy
    ensures t.worker.point == if s.worker.task then Asleep else Gone
  {
    hide Reaches;
    ReachesItself(s);
    match s.worker.point
    case Gone => t := s;
    case Asleep => t := s;
    case Draining => t := WorkerTakes(s, s);
    case Holding =>
      ReachesNext(s, s, Send(0));
      t := WorkerSettles(s, Next(s, Send(0)));
    case Sent(_) => t := WorkerSettles(s, s);
    case Refreshing => t := WorkerEndsRefresh(s, s);
    case Polling(_) =>
      ReachesNext(s, s, Poll);
      t := WorkerEndsRefresh(s, Next(s, Poll));
  }

  /** Threads inside calls come back. */
  lemma {:induction false} CallsReturn(s: System) returns (t: System)
    requires s.calls.inFlight == |s.calls.inside| + s.calls.returning
    ensures Reaches(s, t) && t.calls.inFlight == 0
    ensures t == s.(calls := s.calls.(inFlight := 0, inside := multiset{}, returning := 0))
    decreases |s.calls.inside|, s.calls.returning
  {
    hide Reaches;
    ReachesItself(s);
    if s.calls.inside != multiset{} {
      var c :| c in s.calls.inside;
      ReachesNext(s, s, Return(c));
      t := CallsReturn(Next(s, Return(c)));
      ReachesOn(s, Next(s, Return(c)), t);
    } else if s.calls.returning > 0 {
      ReachesNext(s, s, Leave);
      t := CallsReturn(Next(s, Leave));
      ReachesOn(s, Next(s, Leave), t);
    } else {
      t := s;
    }
  }

  /** Nothing of the relay's work is under way, and publishing is as it was. */
  ghost predicate AtRest(s: System, t: System) {
    && t.event == None && t.calls.inFlight == 0 && !t.worker.busy
    && t.worker.point == (if s.worker.task then Asleep else Gone)
    && t.worker.task == s.worker.task && t.worker.running == s.worker.running
    && t.flags == s.flags.(connected := false, refresh := false)
    && t.calls.made == s.calls.made && t.calls.destroyed == s.calls.destroyed && t.fault == s.fault
  }

  /** The first statement of a teardown, once the handler under way is done. */
  lemma CutsConnection(s: System) returns (t: System)
    requires s.life != [] && s.life[0] == DropAll
    ensures Reaches(s, t) && t.event == None && t.life == s.life[1..]
    ensures t.flags == s.flags.(connected := false, refresh := false)
    ensures t.worker == s.worker && t.calls == s.calls && t.fault == s.fault
  {
    hide Reaches, Next;
    var handled := HandlerFinishes(s);
    ReachesNext(s, handled, Proceed);
    Cuts(handled);
    t := Next(handled, Proceed);
  }

  lemma Idles(s: System) returns (t: System)
    requires Invariant(s) && !s.flags.connected && s.life != [] && s.life[0] == AwaitIdle && Watched(s)
    ensures Reaches(s, t) && t.life == s.life[1..] && t.flags == s.flags && t.event == s.event && t.fault == s.fault
    ensures t.calls.inFlight == 0 && t.calls.made == s.calls.made && t.calls.destroyed == s.calls.destroyed
    ensures t.worker == s.worker.(point := if s.worker.task then Asleep else Gone, busy := false)
  {
    hide Reaches, Invariant, Watched, Next, WorkerSound;
    SoundParts(s);
    var resting := WorkerRests(s);
    SoundOnceReached(s, resting);
    SoundParts(resting);
    var idle := CallsReturn(resting);
    ReachesOn(s, resting, idle);
    ReachesNext(s, idle, Proceed);
    IdleProceeds(idle);
    t := Next(idle, Proceed);
  }

  /** A teardown cuts the connection and waits for the worker. */
  lemma CutsAndWaits(s: System, rest: seq<Command>) returns (t: System)
    requires Invariant(s) && Watched(s) && s.life == [DropAll] + ([AwaitIdle] + rest)
    ensures Reaches(s, t) && AtRest(s, t) && t.life == rest && Invariant(t) && Watched(t)
  {
    hide Reaches, Invariant, Watched, Next;
    First(DropAll, [AwaitIdle] + rest);
    First(AwaitIdle, rest);
    var cut := CutsConnection(s);
    SoundOnceReached(s, cut);
    t := Idles(cut);
    ReachesOn(s, cut, t);
    SoundOnceReached(s, t);
  }

  lemma SoundParts(s: System)
    requires Invariant(s)
    ensures WorkerSound(s) && s.calls.inFlight == |s.calls.inside| + s.calls.returning
  {
  }

  lemma Cuts(s: System)
    requires s.life != [] && s.life[0] == DropAll
    ensures var t := Next(s, Proceed);
            && t.life == s.life[1..] && t.flags == s.flags.(connected := false, refresh := false)
            && t.event == s.event && t.worker == s.worker && t.calls == s.calls && t.fault == s.fault
  {
  }

  lemma IdleProceeds(s: System)
    requires s.life != [] && s.life[0] == AwaitIdle && !s.worker.busy && s.calls.inFlight == 0
    ensures Next(s, Proceed) == s.(life := s.life[1..])
  {
  }

  /** With nobody inside and no handler under way, the client is destroyed. */
  lemma Destroys(s: System, rest: seq<Command>) returns (t: System)
    requires s.life == [Forbid] + ([AwaitDrained] + ([StopClient] + ([AwaitDrained] + ([DestroyClient] + rest))))
    requires s.event == None && s.calls.inFlight == 0 && s.flags.client.Some?
    ensures Reaches(s, t)
    ensures t == s.(life := rest, flags := s.flags.(allowed := false, started := false),
                    calls := s.calls.(destroyed := s.calls.destroyed + {s.flags.client.value}))
  {
    hide Reaches, Next;
    var l4 := [DestroyClient] + rest;
    var l3 := [AwaitDrained] + l4;
    var l2 := [StopClient] + l3;
    ReachesItself(s);
    Forbids(s, [AwaitDrained] + l2);
    ReachesNext(s, s, Proceed);
    var s1 := Next(s, Proceed);
    Drained(s1, l2);
    ReachesNext(s, s1, Proceed);
    var s2 := Next(s1, Proceed);
    Stops(s2, l3);
    ReachesNext(s, s2, Proceed);
    var s3 := Next(s2, Proceed);
    Drained(s3, l4);
    ReachesNext(s, s3, Proceed);
    var s4 := Next(s3, Proceed);
    Destroyed(s4, rest);
    ReachesNext(s, s4, Proceed);
    t := Next(s4, Proceed);
  }

  lemma Forbids(s: System, rest: seq<Command>)
    requires s.life == [Forbid] + rest
    ensures Next(s, Proceed) == s.(life := rest, flags := s.flags.(allowed := false))
  {
    First(Forbid, rest);
  }

  lemma Drained(s: System, rest: seq<Command>)
    requires s.life == [AwaitDrained] + rest && s.calls.inFlight == 0
    ensures Next(s, Proceed) == s.(life := rest)
  {
    First(AwaitDrained, rest);
  }

  lemma Stops(s: System, rest: seq<Command>)
    requires s.life == [StopClient] + rest && s.event == None
    ensures Next(s, Proceed) == s.(life := rest, flags := s.flags.(started := false))
  {
    First(StopClient, rest);
  }

  lemma Destroyed(s: System, rest: seq<Command>)
    requires s.life == [DestroyClient] + rest && s.event == None && s.flags.client.Some?
    ensures Next(s, Proceed) == s.(life := rest, flags := s.flags.(started := false),
                                   calls := s.calls.(destroyed := s.calls.destroyed + {s.flags.client.value}))
  {
    First(DestroyClient, rest);
  }

  // ---------- Exactly when a teardown can be raced ----------

  /** After the wait, a connection is reported and the worker copies the client pointer. */
  lemma LateConnectionIsCopied(s: System, c: nat) returns (t: System)
    requires s.flags.client == Some(c) && s.flags.started && s.flags.allowed && s.flags.accepting
    requires s.event == None && s.worker.point == Asleep && s.worker.running
    ensures Reaches(s, t)
    ensures t == s.(flags := s.flags.(connected := true, refresh := false), worker := t.worker)
    ensures t.worker.point == Polling(c)
  {
    hide Reaches;
    ReachesItself(s);
    ReachesNext(s, s, Arrive(Connected));
    var s1 := Next(s, Arrive(Connected));
    ReachesNext(s, s1, Handle);
    var s2 := Next(s1, Handle);
    assert s2 == s.(flags := s.flags.(connected := true, refresh := true));
    ReachesNext(s, s2, Wake);
    var s3 := Next(s2, Wake);
    ReachesNext(s, s3, CopyClient);
    t := Next(s3, CopyClient);
  }

  lemma TeardownIsRaced(s: System, c: nat, rest: seq<Command>) returns (t: System)
    requires Invariant(s) && Watched(s) && s.life == DestroyThen(rest) && s.flags.client == Some(c)
    requires s.worker.task && s.flags.started && s.flags.allowed
    ensures Reaches(s, t) && c in t.calls.stale
  {
    hide Reaches, Invariant, Next;
    var ban := [Forbid] + ([AwaitDrained] + ([StopClient] + ([AwaitDrained] + ([DestroyClient] + rest))));
    First(Forbid, [AwaitDrained] + ([StopClient] + ([AwaitDrained] + ([DestroyClient] + rest))));
    var idle := CutsAndWaits(s, ban);
    assert idle.worker.running;
    var polling := LateConnectionIsCopied(idle, c);
    ReachesOn(s, idle, polling);
    var destroyed := Destroys(polling, rest);
    ReachesOn(s, polling, destroyed);
    ReachesNext(s, destroyed, Poll);
    t := Next(destroyed, Poll);
    PollOfDestroyed(destroyed, c);
  }

  lemma PollOfDestroyed(s: System, c: nat)
    requires s.worker.point == Polling(c) && c in s.calls.destroyed
    ensures c in Next(s, Poll).calls.stale
  {
  }

  /** Some continuation of the run asks the client for its outbox after it was destroyed. */
  ghost predicate CanBePolledLate(steps: seq<Step>, c: nat) {
    exists more: seq<Step> :: c in Run(steps + more).calls.stale
  }

  /**
   * For every state an operation can begin in: a client it destroys can be asked
   * for its outbox afterwards if and only if the operation is a teardown, which
   * does not silence the relay first, the client is started, publishing is
   * allowed and there is a worker.
   */
  lemma PolledLateIff(steps: seq<Step>, op: Operation, c: nat)
    requires Run(steps).life == [] && Run(steps).flags.client == Some(c)
    requires op.OpDeinit? || (op.OpReconfigure? && Possible(Run(steps), op.extent))
    ensures CanBePolledLate(steps + [Operate(op)], c)
        <==> (var s := Run(steps); op.OpDeinit? && s.worker.task && s.flags.started && s.flags.allowed)
  {
    var s, begun := Run(steps), steps + [Operate(op)];
    assert begun[..|begun| - 1] == steps;
    var s1 := Run(begun);
    assert s1 == Next(s, Operate(op));
    InvariantHolds(begun);
    WatchedAlways(begun);
    hide Run, Next, Invariant, Watched, DestroyThen;
    if op.OpDeinit? && s.worker.task && s.flags.started && s.flags.allowed {
      assert s1 == s.(life := DestroyThen([Dismiss, AwaitGone, Reset])) by { TeardownBegins(s); }
      var t := TeardownIsRaced(s1, c, [Dismiss, AwaitGone, Reset]);
      var more :| Unattended(more) && Follow(s1, more) == t;
      RunThenFollow(begun, more);
      assert c in Run(begun + more).calls.stale;
    } else {
      assert Doomed(s1, c) by {
        InvariantHolds(steps);
        WatchedAlways(steps);
        BegunIsDoomed(s, op, c);
      }
      forall more: seq<Step>
        ensures c !in Run(begun + more).calls.stale
      {
        RunThenFollow(begun, more);
        DoomedForever(s1, more, c);
      }
    }
  }

  lemma TeardownBegins(s: System)
    requires s.life == [] && s.flags.client.Some?
    ensures Next(s, Operate(OpDeinit)) == s.(life := DestroyThen([Dismiss, AwaitGone, Reset]))
  {
    hide DestroyThen;
  }

  lemma BegunIsDoomed(s: System, op: Operation, c: nat)
    requires Invariant(s) && Watched(s) && s.life == [] && s.flags.client == Some(c)
    requires op.OpDeinit? || (op.OpReconfigure? && Possible(s, op.extent))
    requires !(op.OpDeinit? && s.worker.task && s.flags.started && s.flags.allowed)
    ensures Doomed(Next(s, Operate(op)), c)
  {
    hide Program, FenceSound, WorkerSound, RelayItems.Conserved, Orderly, NeedsStopped, NeedsAccepting, Clears;
    EmptyIsOrderly();
    ProgramClears(s, op);
    ProgramCutsFirst(s, op);
    assert c !in s.calls.destroyed;
  }

  lemma ProgramCutsFirst(s: System, op: Operation)
    requires s.flags.client.Some? && (op.OpDeinit? || op.OpReconfigure?)
    ensures Program(s, op) != [] && Program(s, op)[0] == DropAll && Waits(Program(s, op))
  {
    hide Reconfigured;
    var rest := if op.OpDeinit? then [Dismiss, AwaitGone, Reset] else [ClearClient] + Reconfigured(op.extent);
    var tail := [Forbid] + ([AwaitDrained] + ([StopClient] + ([AwaitDrained] + ([DestroyClient] + rest))));
    First(AwaitIdle, tail);
    First(DropAll, [AwaitIdle] + tail);
    assert Program(s, op) == DestroyThen(rest) == [DropAll] + ([AwaitIdle] + tail);
  }

  // ---------- The race, step by step ----------

  const TO_A_STARTED_CLIENT: seq<Step> := [Init, Operate(OpStart(true)), Proceed, Proceed, Proceed]

  lemma StartedClient()
    ensures var s := Run(TO_A_STARTED_CLIENT);
            && s.life == [] && s.flags.client == Some(0) && s.flags.started && s.flags.allowed && s.worker.task
  {
    var s1 := Next(BEGIN, Init);
    var s2 := Next(s1, Operate(OpStart(true)));
    assert s2.life == [EnsureWorker, Allow, StartClient] && s2.flags.client == Some(0) && s2.worker == NOBODY;
    var s3 := Next(s2, Proceed);
    assert s3.life == [Allow, StartClient];
    var s4 := Next(s3, Proceed);
    assert s4.life == [StartClient];
    var s5 := Next(s4, Proceed);
    assert s5.life == [];
    var steps := TO_A_STARTED_CLIENT;
    assert Follow(s4, [Proceed]) == Follow(s5, []) by { assert [Proceed][1..] == []; }
    assert Follow(s3, [Proceed, Proceed]) == Follow(s4, [Proceed]) by { assert [Proceed, Proceed][1..] == [Proceed]; }
    RunFromBegin(steps);
    assert steps[1..] == [Operate(OpStart(true)), Proceed, Proceed, Proceed];
    assert steps[1..][1..] == [Proceed, Proceed, Proceed];
    assert [Proceed, Proceed, Proceed][1..] == [Proceed, Proceed];
    assert Follow(BEGIN, steps) == Follow(s1, steps[1..]) == Follow(s2, steps[1..][1..]) == Follow(s3, [Proceed, Proceed]);
  }

  lemma RunFromBegin(steps: seq<Step>)
    ensures Run(steps) == Follow(BEGIN, steps)
  {
    RunThenFollow([], steps);
    assert [] + steps == steps;
  }

  /** An initialised relay whose client was started can be caught by its teardown. */
  lemma StartedRelayIsRaced()
    ensures CanBePolledLate(TO_A_STARTED_CLIENT + [Operate(OpDeinit)], 0)
  {
    StartedClient();
    PolledLateIff(TO_A_STARTED_CLIENT, OpDeinit, 0);
  }
}
