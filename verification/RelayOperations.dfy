/** What the lifecycle operations of the relay leave behind, and what each step does to its flags. */
module RelayOperations {

  // Only the statements of an operation decide whether there is a client, whether
  // observers, publishing and the worker are welcome and whether there is a queue.
  // So its outcome does not depend on the interleaving.

  import opened MqttRelay
  import opened RelayItems
  import opened Wrappers

  datatype Control = Control(client: bool, accepting: bool, allowed: bool, started: bool, running: bool, hasQueue: bool)

  const ALL_DOWN: Control := Control(false, false, false, false, false, false)

  function ControlOf(s: System): Control {
    var f := s.flags;
    Control(f.client.Some?, f.accepting, f.allowed, f.started, s.worker.running, f.hasQueue)
  }

  /**
   * The outcome of an operation. A stop silences the client and keeps it; a
   * reconfiguration that gets no running client takes everything down.
   */
  function Outcome(op: Operation, c: Control): Control {
    match op
    case OpStart(starts) => if c.client then c.(allowed := true, running := true, started := starts || c.started) else c
    case OpStop => c.(allowed := false, started := !c.client && c.started)
    case OpDeinit => ALL_DOWN
    case OpReconfigure(NotStarted) => Control(true, true, true, false, c.running, c.hasQueue)
    case OpReconfigure(Started) => Control(true, true, true, true, true, c.hasQueue)
    case OpReconfigure(NoClient) => ALL_DOWN
    case OpReconfigure(StartFailed(_)) => ALL_DOWN
  }

  // ---------- Statements ----------

  function Effect(command: Command, c: Control): Control {
    match command
    case Forbid => c.(allowed := false)
    case StopClient => c.(started := false)
    case DestroyClient => c.(started := false)
    case ClearClient => c.(client := false, accepting := false, allowed := false, started := false)
    case Install => c.(client := true, accepting := true, allowed := true, started := false)
    case EnsureWorker => c.(running := true)
    case Allow => c.(allowed := true)
    case StartClient => c.(started := c.client)
    case Dismiss => c.(running := false)
    case DeleteQueue => c.(hasQueue := false)
    case Reset => ALL_DOWN
    case _ => c
  }

  /** What the statements ahead make of it. */
  function Left(life: seq<Command>, c: Control): Control {
    if life == [] then c else Left(life[1..], Effect(life[0], c))
  }

  lemma StepLeaves(s: System, step: Step)
    requires !step.Operate? && !step.Init?
    ensures Left(Next(s, step).life, ControlOf(Next(s, step))) == Left(s.life, ControlOf(s))
  {
    hide Program, PendingItems, Proceeded, Left;
    if step.Proceed? {
      if s.life != [] {
        StatementLeaves(s);
        LeftStep(s.life, ControlOf(s));
      }
    } else {
      OthersLeave(s, step);
    }
  }

  lemma LeftStep(life: seq<Command>, c: Control)
    requires life != []
    ensures Left(life, c) == Left(life[1..], Effect(life[0], c))
  {
  }

  lemma OthersLeave(s: System, step: Step)
    requires !step.Operate? && !step.Init? && !step.Proceed?
    ensures Alike(s, Next(s, step))
  {
    if step.Handle? {
      HandlingLeaves(s);
    } else if step.Wake? {
      WakingLeaves(s);
    } else if step.Take? || step.Settle? || step.Send? {
      WorkLeaves(s, step);
    } else {
      hide PendingItems, Acknowledged, AllDropped;
    }
  }

  lemma HandlingLeaves(s: System)
    ensures Alike(s, Next(s, Handle))
  {
    hide Proceeded, Begun, Built, GivenUp, Admitted, Taken, Settled, Acknowledged, AllDropped, Observing, Current;
    if s.event.Some? {
      match s.event.value
      case Connected => assert Alike(s, Handled(s, Connected));
      case Published(msgId) => assert Alike(s, Handled(s, Published(msgId)));
      case Disconnected => assert Alike(s, Handled(s, Disconnected));
    }
  }

  lemma WakingLeaves(s: System)
    ensures Alike(s, Next(s, Wake))
  {
  }

  lemma WorkLeaves(s: System, step: Step)
    requires step.Take? || step.Settle? || step.Send?
    ensures Alike(s, Next(s, step))
  {
    hide PendingItems, Settled;
  }

  predicate Alike(s: System, t: System) {
    t.life == s.life && ControlOf(t) == ControlOf(s)
  }

  lemma StatementLeaves(s: System)
    requires s.life != []
    ensures Moves(s)
  {
    hide PendingItems, AllDropped, Forgotten;
    match s.life[0]
    case DropAll => assert Moves(s);
    case AwaitIdle => assert Moves(s);
    case Forbid => assert Moves(s);
    case AwaitDrained => assert Moves(s);
    case StopClient => assert Moves(s);
    case DestroyClient => assert Moves(s);
    case ClearClient => assert Moves(s);
    case Install => assert Moves(s);
    case EnsureWorker => assert Moves(s);
    case Allow => assert Moves(s);
    case StartClient => assert Moves(s);
    case Dismiss => assert Moves(s);
    case AwaitGone => assert Moves(s);
    case DeleteQueue => assert Moves(s);
    case Reset => assert Moves(s);
  }

  /** The next statement waits, or is carried out with its effect. */
  predicate Moves(s: System)
    requires s.life != []
  {
    var t := Proceeded(s);
    || (t.life == s.life && ControlOf(t) == ControlOf(s))
    || (t.life == s.life[1..] && ControlOf(t) == Effect(s.life[0], ControlOf(s)))
  }

  lemma {:induction false} StepsLeave(s: System, more: seq<Step>)
    requires Unattended(more)
    ensures Left(Follow(s, more).life, ControlOf(Follow(s, more))) == Left(s.life, ControlOf(s))
    decreases |more|
  {
    hide Next, Left;
    if more != [] {
      StepLeaves(s, more[0]);
      StepsLeave(Next(s, more[0]), more[1..]);
    }
  }

  // ---------- Operations ----------

  lemma LeftFirst(command: Command, rest: seq<Command>, c: Control)
    ensures Left([command] + rest, c) == Left(rest, Effect(command, c))
  {
    First(command, rest);
  }

  lemma StopLeaves(client: bool, rest: seq<Command>, c: Control)
    ensures Left(StopThen(client, rest), c)
         == Left(rest, c.(allowed := false, started := !client && c.started))
  {
    hide Left;
    var l4 := if client then [StopClient] + rest else rest;
    LeftFirst(DropAll, [AwaitIdle] + ([Forbid] + ([AwaitDrained] + l4)), c);
    LeftFirst(AwaitIdle, [Forbid] + ([AwaitDrained] + l4), c);
    LeftFirst(Forbid, [AwaitDrained] + l4, c);
    LeftFirst(AwaitDrained, l4, c.(allowed := false));
    LeftFirst(StopClient, rest, c.(allowed := false));
  }

  lemma DestroyLeaves(rest: seq<Command>, c: Control)
    ensures Left(DestroyThen(rest), c) == Left(rest, c.(allowed := false, started := false))
  {
    hide Left;
    StopLeaves(true, [AwaitDrained] + ([DestroyClient] + rest), c);
    var c' := c.(allowed := false, started := false);
    LeftFirst(AwaitDrained, [DestroyClient] + rest, c');
    LeftFirst(DestroyClient, rest, c');
  }

  lemma ResetLeaves(c: Control)
    ensures Left([Dismiss, AwaitGone, Reset], c) == ALL_DOWN
  {
    hide Left;
    assert [Dismiss, AwaitGone, Reset] == [Dismiss] + ([AwaitGone] + ([Reset] + []));
    LeftFirst(Dismiss, [AwaitGone] + ([Reset] + []), c);
    LeftFirst(AwaitGone, [Reset] + [], Effect(Dismiss, c));
    LeftFirst(Reset, [], Effect(Dismiss, c));
    NothingLeft(ALL_DOWN);
  }

  lemma TerminalLeaves(c: Control)
    ensures Left(TERMINAL, c) == ALL_DOWN
  {
    hide Left;
    var c1 := Effect(ClearClient, c);
    var t1 := [DeleteQueue] + [];
    assert TERMINAL == [ClearClient] + ([AwaitDrained] + ([Dismiss] + ([AwaitGone] + t1)));
    LeftFirst(ClearClient, [AwaitDrained] + ([Dismiss] + ([AwaitGone] + t1)), c);
    LeftFirst(AwaitDrained, [Dismiss] + ([AwaitGone] + t1), c1);
    LeftFirst(Dismiss, [AwaitGone] + t1, c1);
    LeftFirst(AwaitGone, t1, Effect(Dismiss, c1));
    LeftFirst(DeleteQueue, [], Effect(Dismiss, c1));
    NothingLeft(ALL_DOWN);
  }

  lemma StartLeaves(c: Control)
    ensures Left([EnsureWorker, Allow, StartClient], c) == c.(running := true, allowed := true, started := c.client)
    ensures Left([EnsureWorker, Allow], c) == c.(running := true, allowed := true)
  {
    var c1, c2 := Effect(EnsureWorker, c), Effect(Allow, Effect(EnsureWorker, c));
    assert [EnsureWorker, Allow, StartClient] == [EnsureWorker] + ([Allow] + [StartClient]);
    assert [EnsureWorker, Allow] == [EnsureWorker] + [Allow];
    LeftFirst(EnsureWorker, [Allow] + [StartClient], c);
    LeftFirst(Allow, [StartClient], c1);
    LeftFirst(EnsureWorker, [Allow], c);
    assert Left([StartClient], c2) == Effect(StartClient, c2) && Left([Allow], c1) == c2;
  }

  lemma ReconfiguredLeaves(extent: Extent, c: Control)
    requires !c.client && !c.accepting && !c.allowed && !c.started
    ensures Left(Reconfigured(extent), c) == Outcome(OpReconfigure(extent), c)
  {
    hide Left;
    match extent
    case NoClient => TerminalLeaves(c);
    case NotStarted => InstallLeaves(c);
    case Started =>
      assert [Install, EnsureWorker, Allow, StartClient] == [Install] + [EnsureWorker, Allow, StartClient];
      LeftFirst(Install, [EnsureWorker, Allow, StartClient], c);
      StartLeaves(Effect(Install, c));
    case StartFailed(hasWorker) => FailedStartLeaves(hasWorker, c);
  }

  lemma InstallLeaves(c: Control)
    ensures Left([Install], c) == Effect(Install, c)
  {
  }

  lemma FailedStartLeaves(hasWorker: bool, c: Control)
    ensures Left(Reconfigured(StartFailed(hasWorker)), c) == ALL_DOWN
  {
    hide Left, DestroyThen;
    var failed := DestroyThen(TERMINAL);
    var c1 := Effect(Install, c);
    LeftFirst(Install, failed, c);
    LeftFirst(Install, [EnsureWorker] + ([Allow] + failed), c);
    LeftFirst(EnsureWorker, [Allow] + failed, c1);
    LeftFirst(Allow, failed, Effect(EnsureWorker, c1));
    forall d: Control
      ensures Left(failed, d) == ALL_DOWN
    {
      DestroyLeaves(TERMINAL, d);
      TerminalLeaves(d.(allowed := false, started := false));
    }
  }

  /** An operation that may begin. */
  predicate CanBegin(s: System, op: Operation) {
    s.life == [] && (op.OpReconfigure? ==> Possible(s, op.extent))
  }

  lemma BegunLeaves(s: System, op: Operation)
    requires CanBegin(s, op)
    ensures Left(Begun(s, op).life, ControlOf(Begun(s, op))) == Outcome(op, ControlOf(s))
  {
    hide Left, Reconfigured, StopThen, DestroyThen;
    var c := ControlOf(s);
    match op
    case OpStart(_) =>
      StartLeaves(c);
      NothingLeft(c);
    case OpStop =>
      StopLeaves(c.client, [], c);
      NothingLeft(c.(allowed := false, started := !c.client && c.started));
    case OpDeinit =>
      DestroyLeaves([Dismiss, AwaitGone, Reset], c);
      ResetLeaves(c);
      ResetLeaves(c.(allowed := false, started := false));
    case OpReconfigure(extent) =>
      var rest := [ClearClient] + Reconfigured(extent);
      var c1 := c.(accepting := false, allowed := false);
      DestroyLeaves(rest, c1);
      LeftFirst(ClearClient, Reconfigured(extent), c1);
      LeftFirst(ClearClient, Reconfigured(extent), c1.(started := false));
      ReconfiguredLeaves(extent, Effect(ClearClient, c1));
  }

  lemma NothingLeft(c: Control)
    ensures Left([], c) == c
  {
  }

  /**
   * However the threads interleave with it, an operation that has come to its
   * end has the outcome it should have.
   */
  lemma OperationLeaves(s: System, op: Operation, more: seq<Step>)
    requires CanBegin(s, op) && Unattended(more)
    requires Follow(Next(s, Operate(op)), more).life == []
    ensures ControlOf(Follow(Next(s, Operate(op)), more)) == Outcome(op, ControlOf(s))
  {
    var begun := Next(s, Operate(op));
    assert begun == Begun(s, op);
    BegunLeaves(s, op);
    StepsLeave(begun, more);
    NothingLeft(ControlOf(Follow(begun, more)));
  }

  // ---------- What a step does to the flags ----------

  /** A statement of the operation under way is carried out; stopping and destroying a client wait for its handler. */
  predicate Executes(s: System, step: Step, command: Command) {
    && step.Proceed? && s.life != [] && s.life[0] == command
    && (command == StopClient || command == DestroyClient ==> s.event.None?)
  }

  predicate Handles(s: System, step: Step, event: Event) {
    step.Handle? && s.event == Some(event)
  }

  predicate Initialises(s: System, step: Step) {
    step.Init? && s.life == [] && s.flags.client.None? && !s.flags.hasQueue
  }

  predicate Silences(s: System, step: Step) {
    step.Operate? && step.op.OpReconfigure? && CanBegin(s, step.op)
  }

  /** The connection is reported lost, or cut by the relay itself. */
  predicate Disconnects(s: System, step: Step) {
    Handles(s, step, Disconnected) || Executes(s, step, DropAll) || GivesClientUp(s, step)
  }

  predicate GivesClientUp(s: System, step: Step) {
    Executes(s, step, ClearClient) || Executes(s, step, Reset)
  }

  predicate MakesClient(s: System, step: Step) {
    Initialises(s, step) || Executes(s, step, Install)
  }

  predicate Permits(s: System, step: Step) {
    MakesClient(s, step) || Executes(s, step, Allow)
  }

  predicate Forbids(s: System, step: Step) {
    Executes(s, step, Forbid) || GivesClientUp(s, step) || Silences(s, step)
  }

  predicate StartsClient(s: System, step: Step) {
    Executes(s, step, StartClient) && s.flags.client.Some?
  }

  predicate HaltsClient(s: System, step: Step) {
    || Executes(s, step, StopClient) || Executes(s, step, DestroyClient) || GivesClientUp(s, step)
    || Executes(s, step, Install) || (Executes(s, step, StartClient) && s.flags.client.None?)
  }

  predicate RefreshBegins(s: System, step: Step) {
    step.Wake? && s.worker.point == Asleep && s.worker.running && s.flags.refresh && s.flags.connected
  }

  /** A refresh is no longer owed: it begins, or the connection is lost or cut before. */
  predicate RefreshEnds(s: System, step: Step) {
    RefreshBegins(s, step) || Handles(s, step, Disconnected) || Executes(s, step, DropAll) || Executes(s, step, Reset)
  }

  ghost predicate ConnectionRight(s: System, step: Step) {
    var f, g := s.flags, Next(s, step).flags;
    && (g.connected <==> Handles(s, step, Connected) || (f.connected && !Disconnects(s, step)))
    && (g.refresh <==> Handles(s, step, Connected) || (f.refresh && !RefreshEnds(s, step)))
    && (g.wifi <==> step == SetWifi(true) || (f.wifi && step != SetWifi(false) && !Executes(s, step, Reset)))
  }

  lemma ConnectionAfter(s: System, step: Step)
    ensures ConnectionRight(s, step)
  {
    match step
    case Proceed => StatementRight(s);
    case Wake => WakingRight(s);
    case Handle => HandlingRight(s);
    case _ => OtherRight(s, step);
  }

  lemma StatementRight(s: System)
    ensures ConnectionRight(s, Proceed)
  {
    hide Proceeded, Begun;
    if s.life != [] {
      StatementKeepsConnection(s);
    }
  }

  lemma WakingRight(s: System)
    ensures ConnectionRight(s, Wake)
  {
    hide Proceeded, Begun, Built, GivenUp, Admitted, Taken, Settled, Handled;
  }

  lemma HandlingRight(s: System)
    ensures ConnectionRight(s, Handle)
  {
    hide Proceeded, Begun, Built, GivenUp, Admitted, Taken, Settled, Acknowledged, AllDropped, Observing, Current;
    if s.event.Some? {
      match s.event.value
      case Connected => assert ConnectionRight(s, Handle);
      case Published(_) => assert ConnectionRight(s, Handle);
      case Disconnected => assert ConnectionRight(s, Handle);
    }
  }

  lemma OtherRight(s: System, step: Step)
    requires !step.Proceed? && !step.Wake? && !step.Handle?
    ensures ConnectionRight(s, step)
  {
    hide Proceeded, Handled, Built, GivenUp, Admitted, Taken, Settled, Program;
  }

  lemma StatementKeepsConnection(s: System)
    requires s.life != []
    ensures ConnectionKept(s)
  {
    hide PendingItems, AllDropped, Forgotten;
    match s.life[0]
    case DropAll => assert ConnectionKept(s);
    case AwaitIdle => assert ConnectionKept(s);
    case Forbid => assert ConnectionKept(s);
    case AwaitDrained => assert ConnectionKept(s);
    case StopClient => assert ConnectionKept(s);
    case DestroyClient => assert ConnectionKept(s);
    case ClearClient => assert ConnectionKept(s);
    case Install => assert ConnectionKept(s);
    case EnsureWorker => assert ConnectionKept(s);
    case Allow => assert ConnectionKept(s);
    case StartClient => assert ConnectionKept(s);
    case Dismiss => assert ConnectionKept(s);
    case AwaitGone => assert ConnectionKept(s);
    case DeleteQueue => assert ConnectionKept(s);
    case Reset => assert ConnectionKept(s);
  }

  predicate ConnectionKept(s: System)
    requires s.life != []
  {
    var f, g, c := s.flags, Proceeded(s).flags, s.life[0];
    && (g.connected <==> f.connected && c != DropAll && c != ClearClient && c != Reset)
    && (g.refresh <==> f.refresh && c != DropAll && c != Reset)
    && (g.wifi <==> f.wifi && c != Reset)
  }

  ghost predicate PermissionRight(s: System, step: Step) {
    var f, g := s.flags, Next(s, step).flags;
    && (g.client.Some? <==> MakesClient(s, step) || (f.client.Some? && !GivesClientUp(s, step)))
    && (g.accepting <==> MakesClient(s, step) || (f.accepting && !GivesClientUp(s, step) && !Silences(s, step)))
    && (g.allowed <==> Permits(s, step) || (f.allowed && !Forbids(s, step)))
    && (g.started <==> StartsClient(s, step) || (f.started && !HaltsClient(s, step)))
  }

  lemma PermissionAfter(s: System, step: Step)
    ensures PermissionRight(s, step)
  {
    hide PendingItems, AllDropped, Forgotten, Program, Acknowledged, Proceeded;
    match step
    case Proceed =>
      if s.life != [] {
        StatementKeepsPermission(s);
      }
      assert PermissionRight(s, step);
    case Operate(_) => assert PermissionRight(s, step);
    case Init => assert PermissionRight(s, step);
    case _ => OtherPermission(s, step);
  }

  lemma OtherPermission(s: System, step: Step)
    requires !step.Operate? && !step.Init? && !step.Proceed?
    ensures PermissionRight(s, step)
  {
    OthersLeave(s, step);
    NothingDecided(s, step);
    hide Next, MakesClient, GivesClientUp, Silences, Permits, Forbids, StartsClient, HaltsClient;
  }

  lemma NothingDecided(s: System, step: Step)
    requires !step.Operate? && !step.Init? && !step.Proceed?
    ensures !MakesClient(s, step) && !GivesClientUp(s, step) && !Silences(s, step) && !Permits(s, step) && !Forbids(s, step)
    ensures !StartsClient(s, step) && !HaltsClient(s, step)
  {
    hide CanBegin;
  }

  lemma StatementKeepsPermission(s: System)
    requires s.life != []
    ensures PermissionKept(s)
  {
    hide PendingItems, AllDropped, Forgotten;
    match s.life[0]
    case DropAll => assert PermissionKept(s);
    case AwaitIdle => assert PermissionKept(s);
    case Forbid => assert PermissionKept(s);
    case AwaitDrained => assert PermissionKept(s);
    case StopClient => assert PermissionKept(s);
    case DestroyClient => assert PermissionKept(s);
    case ClearClient => assert PermissionKept(s);
    case Install => assert PermissionKept(s);
    case EnsureWorker => assert PermissionKept(s);
    case Allow => assert PermissionKept(s);
    case StartClient => assert PermissionKept(s);
    case Dismiss => assert PermissionKept(s);
    case AwaitGone => assert PermissionKept(s);
    case DeleteQueue => assert PermissionKept(s);
    case Reset => assert PermissionKept(s);
  }

  predicate PermissionKept(s: System)
    requires s.life != []
  {
    var f, g, c := s.flags, Proceeded(s).flags, s.life[0];
    && (g.client.Some? <==> c == Install || (f.client.Some? && c != ClearClient && c != Reset))
    && (g.accepting <==> c == Install || (f.accepting && c != ClearClient && c != Reset))
    && (g.allowed <==> c == Install || c == Allow || (f.allowed && c != Forbid && c != ClearClient && c != Reset))
    && (g.started <==> if c == StartClient then f.client.Some?
                       else f.started && c != ClearClient && c != Install && c != Reset
                            && (c == StopClient || c == DestroyClient ==> s.event.Some?))
  }
}
