/** The relay's queue, which a failed reconfiguration deletes and no later one makes again. */
module RelayQueue {

  import opened MqttRelay
  import opened Wrappers
  import opened OutboxPoll
  import RelayItems

  // ---------- While the queue is kept ----------

  /** No reconfiguration begins without a queue, that is, after one that failed. */
  ghost predicate QueueKept(steps: seq<Step>)
    decreases |steps|
  {
    steps == []
    || (var before, step := steps[..|steps| - 1], steps[|steps| - 1];
        && QueueKept(before)
        && (BeginsReconfiguration(Run(before), step) ==> Run(before).flags.hasQueue))
  }

  predicate BeginsReconfiguration(s: System, step: Step) {
    step.Operate? && step.op.OpReconfigure? && s.life == []
  }

  /** A client is only installed while there is a queue. */
  predicate Installs(life: seq<Command>) {
    life != [] && (life[0] == Install || Installs(life[1..]))
  }

  /** Nothing deletes the queue before a client is installed. */
  predicate KeepsQueue(life: seq<Command>) {
    life != [] ==> ((life[0] == DeleteQueue || life[0] == Reset) ==> !Installs(life[1..])) && KeepsQueue(life[1..])
  }

  ghost predicate QueueSound(s: System) {
    && !s.fault
    && (s.flags.accepting ==> s.flags.hasQueue)
    && (Installs(s.life) ==> s.flags.hasQueue)
    && KeepsQueue(s.life)
  }

  /** An item is sent to a deleted queue only after a reconfiguration was begun without one. */
  lemma {:induction false} NoFaultWhileQueueKept(steps: seq<Step>)
    requires QueueKept(steps)
    ensures QueueSound(Run(steps)) && !Run(steps).fault
    decreases |steps|
  {
    hide Next, Invariant;
    if steps == [] {
      BeginKeepsQueue();
    } else {
      var before, step := steps[..|steps| - 1], steps[|steps| - 1];
      NoFaultWhileQueueKept(before);
      InvariantHolds(before);
      hide QueueSound;
      StepKeepsQueue(Run(before), step);
      FaultOf(Run(steps));
    }
  }

  lemma FaultOf(s: System)
    requires QueueSound(s)
    ensures !s.fault
  {
  }

  lemma BeginKeepsQueue()
    ensures QueueSound(BEGIN)
  {
  }

  lemma StepKeepsQueue(s: System, step: Step)
    requires Invariant(s) && QueueSound(s)
    requires BeginsReconfiguration(s, step) ==> s.flags.hasQueue
    ensures QueueSound(Next(s, step))
  {
    hide RelayItems.Conserved, FenceSound, ClientsSound, Program, Proceeded, RelayItems.Admitted;
    match step
    case Operate(op) =>
      if s.life == [] {
        ProgramKeepsQueue(s, op);
      }
      assert QueueSound(Next(s, step));
    case Proceed =>
      if s.life != [] {
        ProceedKeepsQueue(s);
      }
    case EndObserving(_, _) => assert QueueSound(Next(s, step));
    case Init => assert QueueSound(Next(s, step));
    case _ =>
      SameQueue(s, Next(s, step));
  }

  lemma SameQueue(s: System, s': System)
    requires QueueSound(s) && s'.life == s.life && s'.fault == s.fault
    requires s'.flags.accepting == s.flags.accepting && s'.flags.hasQueue == s.flags.hasQueue
    ensures QueueSound(s')
  {
  }

  lemma ProceedKeepsQueue(s: System)
    requires WorkerSound(s) && QueueSound(s) && s.life != []
    ensures QueueSound(Proceeded(s))
  {
    match s.life[0]
    case DropAll => assert QueueSound(Proceeded(s));
    case AwaitIdle => assert QueueSound(Proceeded(s));
    case Forbid => assert QueueSound(Proceeded(s));
    case AwaitDrained => assert QueueSound(Proceeded(s));
    case StopClient => assert QueueSound(Proceeded(s));
    case DestroyClient => assert QueueSound(Proceeded(s));
    case ClearClient => assert QueueSound(Proceeded(s));
    case Install => assert QueueSound(Proceeded(s));
    case EnsureWorker => assert QueueSound(Proceeded(s));
    case Allow => assert QueueSound(Proceeded(s));
    case StartClient => assert QueueSound(Proceeded(s));
    case Dismiss => assert QueueSound(Proceeded(s));
    case AwaitGone => assert QueueSound(Proceeded(s));
    case DeleteQueue => assert QueueSound(Proceeded(s));
    case Reset => assert QueueSound(Proceeded(s));
  }

  lemma PrefixKeepsQueue(c: Command, rest: seq<Command>)
    requires KeepsQueue(rest) && c != DeleteQueue && c != Reset
    ensures KeepsQueue([c] + rest) && (Installs([c] + rest) <==> c == Install || Installs(rest))
  {
    First(c, rest);
  }

  lemma StopThenKeepsQueue(client: bool, rest: seq<Command>)
    requires KeepsQueue(rest)
    ensures KeepsQueue(StopThen(client, rest)) && (Installs(StopThen(client, rest)) <==> Installs(rest))
  {
    var l4 := if client then [StopClient] + rest else rest;
    hide KeepsQueue, Installs;
    PrefixKeepsQueue(StopClient, rest);
    PrefixKeepsQueue(AwaitDrained, l4);
    PrefixKeepsQueue(Forbid, [AwaitDrained] + l4);
    PrefixKeepsQueue(AwaitIdle, [Forbid] + ([AwaitDrained] + l4));
    PrefixKeepsQueue(DropAll, [AwaitIdle] + ([Forbid] + ([AwaitDrained] + l4)));
  }

  lemma DestroyThenKeepsQueue(rest: seq<Command>)
    requires KeepsQueue(rest)
    ensures KeepsQueue(DestroyThen(rest)) && (Installs(DestroyThen(rest)) <==> Installs(rest))
  {
    hide KeepsQueue, Installs, StopThen;
    PrefixKeepsQueue(DestroyClient, rest);
    PrefixKeepsQueue(AwaitDrained, [DestroyClient] + rest);
    StopThenKeepsQueue(true, [AwaitDrained] + ([DestroyClient] + rest));
  }

  lemma EndingsKeepQueue()
    ensures KeepsQueue([Dismiss, AwaitGone, Reset]) && !Installs([Dismiss, AwaitGone, Reset])
    ensures KeepsQueue(TERMINAL) && !Installs(TERMINAL)
  {
    hide Installs, KeepsQueue;
    NothingKeepsQueue();
    assert [AwaitGone, Reset] == [AwaitGone] + [Reset] && [Dismiss, AwaitGone, Reset] == [Dismiss] + [AwaitGone, Reset];
    PrefixKeepsQueue(AwaitGone, [Reset]);
    PrefixKeepsQueue(Dismiss, [AwaitGone, Reset]);
    assert [AwaitGone, DeleteQueue] == [AwaitGone] + [DeleteQueue];
    assert [Dismiss, AwaitGone, DeleteQueue] == [Dismiss] + [AwaitGone, DeleteQueue];
    assert [AwaitDrained, Dismiss, AwaitGone, DeleteQueue] == [AwaitDrained] + [Dismiss, AwaitGone, DeleteQueue];
    assert TERMINAL == [ClearClient] + [AwaitDrained, Dismiss, AwaitGone, DeleteQueue];
    PrefixKeepsQueue(AwaitGone, [DeleteQueue]);
    PrefixKeepsQueue(Dismiss, [AwaitGone, DeleteQueue]);
    PrefixKeepsQueue(AwaitDrained, [Dismiss, AwaitGone, DeleteQueue]);
    PrefixKeepsQueue(ClearClient, [AwaitDrained, Dismiss, AwaitGone, DeleteQueue]);
  }

  lemma NothingKeepsQueue()
    ensures KeepsQueue([]) && !Installs([])
    ensures KeepsQueue([Reset]) && !Installs([Reset]) && KeepsQueue([DeleteQueue]) && !Installs([DeleteQueue])
  {
  }

  lemma StartKeepsQueue()
    ensures KeepsQueue([EnsureWorker, Allow, StartClient]) && !Installs([EnsureWorker, Allow, StartClient])
    ensures KeepsQueue([EnsureWorker, Allow]) && !Installs([EnsureWorker, Allow])
  {
    hide Installs, KeepsQueue;
    NothingKeepsQueue();
    assert [StartClient] == [StartClient] + [] && [Allow] == [Allow] + [];
    assert [Allow, StartClient] == [Allow] + [StartClient] && [EnsureWorker, Allow] == [EnsureWorker] + [Allow];
    assert [EnsureWorker, Allow, StartClient] == [EnsureWorker] + [Allow, StartClient];
    PrefixKeepsQueue(StartClient, []);
    PrefixKeepsQueue(Allow, [StartClient]);
    PrefixKeepsQueue(EnsureWorker, [Allow, StartClient]);
    PrefixKeepsQueue(Allow, []);
    PrefixKeepsQueue(EnsureWorker, [Allow]);
  }

  lemma ReconfiguredKeepsQueue(extent: Extent)
    ensures KeepsQueue(Reconfigured(extent))
  {
    hide Installs, KeepsQueue, DestroyThen;
    EndingsKeepQueue();
    NothingKeepsQueue();
    match extent
    case NoClient =>
    case NotStarted =>
      assert [Install] == [Install] + [];
      PrefixKeepsQueue(Install, []);
    case Started =>
      StartKeepsQueue();
      assert [Install, EnsureWorker, Allow, StartClient] == [Install] + [EnsureWorker, Allow, StartClient];
      PrefixKeepsQueue(Install, [EnsureWorker, Allow, StartClient]);
    case StartFailed(hasWorker) =>
      DestroyThenKeepsQueue(TERMINAL);
      var failed := DestroyThen(TERMINAL);
      PrefixKeepsQueue(Allow, failed);
      PrefixKeepsQueue(EnsureWorker, [Allow] + failed);
      PrefixKeepsQueue(Install, [EnsureWorker] + ([Allow] + failed));
      PrefixKeepsQueue(Install, failed);
  }

  lemma ProgramKeepsQueue(s: System, op: Operation)
    ensures KeepsQueue(Program(s, op)) && (Installs(Program(s, op)) ==> op.OpReconfigure?)
  {
    hide Installs, KeepsQueue, DestroyThen, StopThen, Reconfigured;
    EndingsKeepQueue();
    NothingKeepsQueue();
    match op
    case OpStart(_) => StartKeepsQueue();
    case OpStop => StopThenKeepsQueue(s.flags.client.Some?, []);
    case OpDeinit => DestroyThenKeepsQueue([Dismiss, AwaitGone, Reset]);
    case OpReconfigure(extent) =>
      ReconfiguredKeepsQueue(extent);
      var rest := [ClearClient] + Reconfigured(extent);
      PrefixKeepsQueue(ClearClient, Reconfigured(extent));
      DestroyThenKeepsQueue(rest);
  }

  // ---------- A reconfiguration without a queue ----------

  /** Steps in which clients are started and stopped, but none is made or given up. */
  ghost predicate OnlyStartsAndStops(steps: seq<Step>) {
    forall step <- steps :: !step.Init? && (step.Operate? ==> step.op.OpStart? || step.op.OpStop?)
  }

  predicate Deletes(life: seq<Command>) {
    life != [] && (life[0] == DeleteQueue || life[0] == Reset || Deletes(life[1..]))
  }

  /** There is a queue, and nothing ahead deletes it. */
  ghost predicate QueueStays(s: System) {
    s.flags.hasQueue && !s.fault && !Deletes(s.life)
  }

  lemma DeletesInFront(c: Command, rest: seq<Command>)
    ensures Deletes([c] + rest) <==> c == DeleteQueue || c == Reset || Deletes(rest)
  {
    First(c, rest);
  }

  lemma StopThenDeletes(client: bool, rest: seq<Command>)
    ensures Deletes(StopThen(client, rest)) <==> Deletes(rest)
  {
    hide Deletes;
    var l4 := if client then [StopClient] + rest else rest;
    DeletesInFront(StopClient, rest);
    DeletesInFront(AwaitDrained, l4);
    DeletesInFront(Forbid, [AwaitDrained] + l4);
    DeletesInFront(AwaitIdle, [Forbid] + ([AwaitDrained] + l4));
    DeletesInFront(DropAll, [AwaitIdle] + ([Forbid] + ([AwaitDrained] + l4)));
  }

  lemma StartDeletesNothing()
    ensures !Deletes([]) && !Deletes([EnsureWorker, Allow]) && !Deletes([EnsureWorker, Allow, StartClient])
    ensures !Deletes([Install]) && !Deletes([Install, EnsureWorker, Allow, StartClient])
  {
    hide Deletes;
    assert !Deletes([]) by { NothingDeletesNothing(); }
    DeletesInFront(StartClient, []);
    DeletesInFront(Allow, []);
    DeletesInFront(Install, []);
    assert [StartClient] == [StartClient] + [] && [Allow] == [Allow] + [] && [Install] == [Install] + [];
    assert [Allow, StartClient] == [Allow] + [StartClient] && [EnsureWorker, Allow] == [EnsureWorker] + [Allow];
    assert [EnsureWorker, Allow, StartClient] == [EnsureWorker] + [Allow, StartClient];
    assert [Install, EnsureWorker, Allow, StartClient] == [Install] + [EnsureWorker, Allow, StartClient];
    DeletesInFront(Allow, [StartClient]);
    DeletesInFront(EnsureWorker, [Allow, StartClient]);
    DeletesInFront(EnsureWorker, [Allow]);
    DeletesInFront(Install, [EnsureWorker, Allow, StartClient]);
  }

  lemma NothingDeletesNothing()
    ensures !Deletes([])
  {
  }

  /** The reconfigurations that succeed. */
  predicate Succeeds(extent: Extent) {
    extent == NotStarted || extent == Started
  }

  lemma ProgramDeletesNothing(s: System, op: Operation)
    requires op.OpStart? || op.OpStop? || (op.OpReconfigure? && Succeeds(op.extent))
    ensures !Deletes(Program(s, op))
  {
    hide Deletes, StopThen;
    StartDeletesNothing();
    match op
    case OpStart(_) =>
    case OpStop => StopThenDeletes(s.flags.client.Some?, []);
    case OpReconfigure(extent) =>
      var rest := [ClearClient] + Reconfigured(extent);
      DeletesInFront(ClearClient, Reconfigured(extent));
      DeletesInFront(DestroyClient, rest);
      DeletesInFront(AwaitDrained, [DestroyClient] + rest);
      StopThenDeletes(true, [AwaitDrained] + ([DestroyClient] + rest));
  }

  lemma StepKeepsQueueThere(s: System, step: Step)
    requires QueueStays(s) && !step.Init? && (step.Operate? ==> step.op.OpStart? || step.op.OpStop?)
    ensures QueueStays(Next(s, step))
  {
    hide Program, Proceeded, RelayItems.Admitted;
    match step
    case Operate(op) => ProgramDeletesNothing(s, op);
    case Proceed =>
      if s.life != [] {
        ProceedKeepsQueueThere(s);
      }
    case Handle => assert QueueStays(Next(s, Handle));
    case EndObserving(_, _) => assert QueueStays(Next(s, step));
    case _ =>
  }

  lemma ProceedKeepsQueueThere(s: System)
    requires QueueStays(s) && s.life != []
    ensures QueueStays(Proceeded(s))
  {
    hide RelayItems.AllDropped;
    assert s.life[0] != DeleteQueue && s.life[0] != Reset && !Deletes(s.life[1..]);
    assert Proceeded(s).life == s.life || Proceeded(s).life == s.life[1..];
  }

  lemma {:induction false} QueueStaysThere(s: System, more: seq<Step>)
    requires QueueStays(s) && OnlyStartsAndStops(more)
    ensures QueueStays(Follow(s, more))
    decreases |more|
  {
    hide Next, QueueStays;
    if more != [] {
      assert more[0] in more && forall step <- more[1..] :: step in more;
      StepKeepsQueueThere(s, more[0]);
      QueueStaysThere(Next(s, more[0]), more[1..]);
    }
  }

  // ---------- The way to a fault ----------

  /** The client is given up, whether there was one or not. */
  lemma GivesUpClient(s: System, rest: seq<Command>) returns (t: System)
    requires Invariant(s) && Watched(s)
    requires s.life == if s.flags.client.Some? then DestroyThen([ClearClient] + rest) else [ClearClient] + rest
    ensures Reaches(s, t) && t.life == rest && t.event == None && t.fault == s.fault
    ensures t.flags.client == None && !t.flags.started && t.flags.hasQueue == s.flags.hasQueue
  {
    hide Reaches, Invariant, Next;
    var ban := [Forbid] + ([AwaitDrained] + ([StopClient] + ([AwaitDrained] + ([DestroyClient] + ([ClearClient] + rest)))));
    First(ClearClient, rest);
    ReachesItself(s);
    var u := s;
    if s.flags.client.Some? {
      var idle := CutsAndWaits(s, ban);
      u := Destroys(idle, [ClearClient] + rest);
      ReachesOn(s, idle, u);
    }
    assert u.event == None;
    ReachesNext(s, u, Proceed);
    t := Next(u, Proceed);
    ClientCleared(u);
  }

  lemma ClientCleared(s: System)
    requires s.life != [] && s.life[0] == ClearClient
    ensures var t := Next(s, Proceed);
            && t.life == s.life[1..] && t.event == s.event && t.fault == s.fault
            && t.flags.client == None && !t.flags.started && t.flags.hasQueue == s.flags.hasQueue
  {
  }

  lemma ClientInstalled(s: System)
    requires s.life != [] && s.life[0] == Install
    ensures var t := Next(s, Proceed);
            && t.life == s.life[1..] && t.event == s.event && t.fault == s.fault && !t.flags.started
            && t.flags.client.Some? && t.flags.accepting && t.flags.hasQueue == s.flags.hasQueue
  {
  }

  /** A client started without a queue lets an observer send to it. */
  lemma StartedClientFaults(s: System) returns (t: System)
    requires s.life == [EnsureWorker, Allow, StartClient] && s.flags.client.Some? && s.flags.accepting
    requires s.event == None && !s.flags.hasQueue
    ensures Reaches(s, t) && t.fault
  {
    hide Reaches;
    ReachesItself(s);
    ReachesNext(s, s, Proceed);
    var s1 := Next(s, Proceed);
    assert s1.life == [Allow, StartClient] && s1.flags == s.flags && s1.event == None;
    ReachesNext(s, s1, Proceed);
    var s2 := Next(s1, Proceed);
    assert s2 == s1.(life := [StartClient], flags := s.flags.(allowed := true));
    ReachesNext(s, s2, Proceed);
    var s3 := Next(s2, Proceed);
    assert s3 == s2.(life := [], flags := s2.flags.(started := true));
    t := ObserverFaults(s3);
    ReachesOn(s, s3, t);
  }

  lemma ObserverFaults(s: System) returns (t: System)
    requires s.flags.started && s.flags.accepting && s.flags.allowed && s.event == None && !s.flags.hasQueue
    ensures Reaches(s, t) && t.fault
  {
    hide Reaches;
    ReachesItself(s);
    ReachesNext(s, s, SetWifi(true));
    var s1 := Next(s, SetWifi(true));
    ReachesNext(s, s1, Arrive(Connected));
    var s2 := Next(s1, Arrive(Connected));
    ReachesNext(s, s2, Handle);
    var s3 := Next(s2, Handle);
    ReachesNext(s, s3, BeginObserving(true));
    var s4 := Next(s3, BeginObserving(true));
    var item := s3.items.built;
    assert item in s4.items.hands;
    ReachesNext(s, s4, EndObserving(item, true));
    t := Next(s4, EndObserving(item, true));
  }

  /** Some continuation in which no other client is made or given up sends an item to a deleted queue. */
  ghost predicate CanFault(steps: seq<Step>) {
    exists more :: OnlyStartsAndStops(more) && Run(steps + more).fault
  }

  lemma ReachedFaults(steps: seq<Step>, t: System)
    requires Reaches(Run(steps), t) && t.fault
    ensures CanFault(steps)
  {
    var more :| Unattended(more) && Follow(Run(steps), more) == t;
    RunThenFollow(steps, more);
    assert OnlyStartsAndStops(more) && Run(steps + more).fault;
  }

  /** The new client is installed; started by the reconfiguration itself or by the next start. */
  lemma WithoutQueueFaults(begun: seq<Step>, extent: Extent)
    requires Succeeds(extent)
    requires var s := Run(begun);
             && !s.flags.hasQueue
             && s.life == (if s.flags.client.Some? then DestroyThen([ClearClient] + Reconfigured(extent))
                           else [ClearClient] + Reconfigured(extent))
    ensures CanFault(begun)
  {
    InvariantHolds(begun);
    WatchedAlways(begun);
    var s := Run(begun);
    hide Run, Next, Reaches, Invariant, Watched, DestroyThen;
    var cleared := GivesUpClient(s, Reconfigured(extent));
    ReachesNext(s, cleared, Proceed);
    ClientInstalled(cleared);
    var installed := Next(cleared, Proceed);
    if extent == Started {
      assert installed.life == [EnsureWorker, Allow, StartClient];
      var t := StartedClientFaults(installed);
      ReachesOn(s, installed, t);
      ReachedFaults(begun, t);
    } else {
      assert installed.life == [];
      StartBegins(installed);
      var starting := Next(installed, Operate(OpStart(true)));
      var t := StartedClientFaults(starting);
      JoinsWithStart(begun, installed, starting, t);
    }
  }

  lemma StartBegins(s: System)
    requires s.life == [] && s.flags.client.Some?
    ensures Next(s, Operate(OpStart(true))) == s.(life := [EnsureWorker, Allow, StartClient])
  {
  }

  lemma JoinsWithStart(begun: seq<Step>, installed: System, starting: System, t: System)
    requires Reaches(Run(begun), installed) && starting == Next(installed, Operate(OpStart(true)))
    requires Reaches(starting, t) && t.fault
    ensures CanFault(begun)
  {
    hide Next;
    var s := Run(begun);
    var a :| Unattended(a) && Follow(s, a) == installed;
    var b :| Unattended(b) && Follow(starting, b) == t;
    var start := [Operate(OpStart(true))];
    assert start[1..] == [];
    assert Follow(installed, start) == Follow(starting, []) == starting;
    FollowAppend(s, a, start);
    FollowAppend(s, a + start, b);
    RunThenFollow(begun, a + start + b);
    assert OnlyStartsAndStops(a + start + b);
    assert Run(begun + (a + start + b)).fault;
  }

  /**
   * For every state a reconfiguration can begin in: one that succeeds lets
   * observers send to a deleted queue, unless a later one intervenes, if and
   * only if there is no queue when it begins.
   */
  lemma ReconfigurationFaultsIff(steps: seq<Step>, extent: Extent)
    requires Run(steps).life == [] && !Run(steps).fault
    requires Succeeds(extent) && Possible(Run(steps), extent)
    ensures CanFault(steps + [Operate(OpReconfigure(extent))]) <==> !Run(steps).flags.hasQueue
  {
    var s, op := Run(steps), OpReconfigure(extent);
    var begun := steps + [Operate(op)];
    assert begun[..|begun| - 1] == steps;
    assert Run(begun) == Next(s, Operate(op));
    assert Run(begun) == s.(life := Program(s, op), flags := s.flags.(accepting := false, allowed := false));
    hide Run, Next;
    if s.flags.hasQueue {
      ProgramDeletesNothing(s, op);
      forall more | OnlyStartsAndStops(more)
        ensures !Run(begun + more).fault
      {
        RunThenFollow(begun, more);
        QueueStaysThere(Run(begun), more);
      }
    } else {
      WithoutQueueFaults(begun, extent);
    }
  }

  // ---------- A run that loses the queue ----------

  function Proceeds(n: nat): seq<Step> {
    if n == 0 then [] else [Proceed] + Proceeds(n - 1)
  }

  /** A relay is initialised, and its reconfiguration cannot make a client. */
  const FAILED: seq<Step> := [Init, Operate(OpReconfigure(NoClient))] + Proceeds(13)

  lemma OneProceeds(s: System, n: nat)
    requires n > 0
    ensures Follow(s, Proceeds(n)) == Follow(Next(s, Proceed), Proceeds(n - 1))
  {
    hide Next;
    assert ([Proceed] + Proceeds(n - 1))[1..] == Proceeds(n - 1);
  }

  lemma Drops(s: System)
    requires s.life != [] && s.life[0] == DropAll
    ensures Next(s, Proceed) == s.(life := s.life[1..], flags := s.flags.(connected := false, refresh := false),
                                   items := RelayItems.AllDropped(s.items))
  {
  }

  lemma QuietTeardown(s: System, rest: seq<Command>, n: nat)
    requires s.life == DestroyThen(rest) && s.event == None && s.calls.inFlight == 0 && !s.worker.busy && s.flags.client.Some?
    ensures var t := Follow(s, Proceeds(7 + n));
            && t == Follow(s.(life := rest,
                              flags := s.flags.(connected := false, refresh := false, allowed := false, started := false),
                              items := RelayItems.AllDropped(s.items),
                              calls := s.calls.(destroyed := s.calls.destroyed + {s.flags.client.value})), Proceeds(n))
  {
    hide Next, Follow, Proceeds, RelayItems.AllDropped;
    var l6 := [DestroyClient] + rest;
    var l5 := [AwaitDrained] + l6;
    var l4 := [StopClient] + l5;
    var l3 := [AwaitDrained] + l4;
    var l2 := [Forbid] + l3;
    First(DropAll, [AwaitIdle] + l2);
    First(AwaitIdle, l2);
    Drops(s);
    var s1 := Next(s, Proceed);
    IdleProceeds(s1);
    var s2 := Next(s1, Proceed);
    Forbids(s2, l3);
    var s3 := Next(s2, Proceed);
    Drained(s3, l4);
    var s4 := Next(s3, Proceed);
    Stops(s4, l5);
    var s5 := Next(s4, Proceed);
    Drained(s5, l6);
    var s6 := Next(s5, Proceed);
    Destroyed(s6, rest);
    OneProceeds(s, 7 + n);
    OneProceeds(s1, 6 + n);
    OneProceeds(s2, 5 + n);
    OneProceeds(s3, 4 + n);
    OneProceeds(s4, 3 + n);
    OneProceeds(s5, 2 + n);
    OneProceeds(s6, 1 + n);
  }

  lemma QuietClearing(s: System, n: nat)
    requires s.life == [ClearClient] + TERMINAL && s.calls.inFlight == 0
    ensures exists t :: Follow(s, Proceeds(3 + n)) == Follow(t, Proceeds(n)) && ClearedDown(s, t)
  {
    hide Follow, Proceeds, RelayItems.AllDropped;
    var s1 := Next(s, Proceed);
    assert s1.life == [ClearClient, AwaitDrained, Dismiss, AwaitGone, DeleteQueue];
    var s2 := Next(s1, Proceed);
    assert s2.life == [AwaitDrained, Dismiss, AwaitGone, DeleteQueue] && s2.calls == s.calls && s2.worker == s.worker;
    var s3 := Next(s2, Proceed);
    assert s3 == s2.(life := [Dismiss, AwaitGone, DeleteQueue]);
    OneProceeds(s, 3 + n);
    OneProceeds(s1, 2 + n);
    OneProceeds(s2, 1 + n);
    assert ClearedDown(s, s3);
  }

  ghost predicate ClearedDown(s: System, t: System) {
    && t.life == [Dismiss, AwaitGone, DeleteQueue] && t.flags.client == None && t.worker == s.worker
    && t.flags.wifi == s.flags.wifi && t.fault == s.fault
  }

  lemma QuietEnding(s: System)
    requires s.life == [Dismiss, AwaitGone, DeleteQueue] && s.worker == NOBODY
    ensures Follow(s, Proceeds(3)) == s.(life := [], flags := s.flags.(hasQueue := false))
  {
    hide Follow, Proceeds;
    var s4 := Next(s, Proceed);
    assert s4 == s.(life := [AwaitGone, DeleteQueue]);
    var s5 := Next(s4, Proceed);
    assert s5 == s.(life := [DeleteQueue]);
    var s6 := Next(s5, Proceed);
    assert s6 == s.(life := [], flags := s.flags.(hasQueue := false));
    OneProceeds(s, 3);
    OneProceeds(s4, 2);
    OneProceeds(s5, 1);
    NothingFollows(s6);
  }

  lemma NothingFollows(s: System)
    ensures Follow(s, Proceeds(0)) == s
  {
  }

  lemma FailedBegins()
    ensures exists s :: Run(FAILED) == Follow(s, Proceeds(13)) && FailingAtRest(s)
  {
    var s1 := Next(BEGIN, Init);
    var op := OpReconfigure(NoClient);
    InitialisedFails(s1);
    hide Next, DestroyThen, FailingAtRest;
    var s2 := Next(s1, Operate(op));
    RunFromBegin(FAILED);
    assert FAILED[1..] == [Operate(op)] + Proceeds(13) && FAILED[1..][1..] == Proceeds(13);
    assert Follow(BEGIN, FAILED) == Follow(s1, FAILED[1..]) == Follow(s2, Proceeds(13));
  }

  lemma InitialisedFails(s: System)
    requires s == Next(BEGIN, Init)
    ensures FailingAtRest(Next(s, Operate(OpReconfigure(NoClient))))
  {
    hide DestroyThen;
  }

  ghost predicate FailingAtRest(s: System) {
    && s.life == DestroyThen([ClearClient] + TERMINAL) && s.flags.client.Some? && !s.flags.wifi && !s.fault
    && s.event == None && s.calls.inFlight == 0 && s.worker == NOBODY
  }

  /**
   * An initialised relay loses its queue in a reconfiguration that cannot make a
   * client; the next one that succeeds can fault.
   */
  lemma FailedReconfigurationLosesQueue()
    ensures Run(FAILED).life == [] && !Run(FAILED).flags.hasQueue
    ensures CanFault(FAILED + [Operate(OpReconfigure(NotStarted))])
  {
    hide DestroyThen, Next, Follow, Run, RelayItems.AllDropped;
    FailedBegins();
    var s :| Run(FAILED) == Follow(s, Proceeds(13)) && FailingAtRest(s);
    var rest := [ClearClient] + TERMINAL;
    QuietTeardown(s, rest, 6);
    var given := s.(life := rest,
                    flags := s.flags.(connected := false, refresh := false, allowed := false, started := false),
                    items := RelayItems.AllDropped(s.items),
                    calls := s.calls.(destroyed := s.calls.destroyed + {s.flags.client.value}));
    QuietClearing(given, 3);
    var t :| Follow(given, Proceeds(6)) == Follow(t, Proceeds(3)) && ClearedDown(given, t);
    QuietEnding(t);
    ReconfigurationFaultsIff(FAILED, NotStarted);
  }
}
