/** The relay as a concurrent system; every critical section is one step. */
module MqttRelay {

  // Observers, the worker, the client's event callbacks and publishing threads
  // take steps in any order, and one lifecycle operation at a time runs under
  // the lifecycle lock.

  import opened RelayItems
  import opened Wrappers

  /** `started` says that the current client is started, `refresh` that the worker owes a refresh. */
  datatype Flags = Flags(
    client: Option<nat>,
    accepting: bool,
    allowed: bool,
    started: bool,
    wifi: bool,
    connected: bool,
    refresh: bool,
    hasQueue: bool)

  /** Polling holds the client pointer the worker copied before it asks for the outbox size. */
  datatype Point = Gone | Asleep | Refreshing | Polling(client: nat) | Draining | Holding | Sent(msgId: int)

  datatype Worker = Worker(point: Point, task: bool, running: bool, busy: bool)

  /**
   * Publish and enqueue calls into the client: the counter, the threads inside
   * by client, the threads that came back and did not decrement the counter
   * yet; the clients made and destroyed so far, and the destroyed ones whose
   * outbox was asked for all the same.
   */
  datatype Calls = Calls(inFlight: nat, inside: multiset<nat>, returning: nat, made: nat, destroyed: set<nat>, stale: set<nat>)

  /** What the current client reports. */
  datatype Event = Connected | Published(msgId: int) | Disconnected

  /** The statements of a lifecycle operation. */
  datatype Command =
    | DropAll
    | AwaitIdle
    | Forbid
    | AwaitDrained
    | StopClient
    | DestroyClient
    | ClearClient
    | Install
    | EnsureWorker
    | Allow
    | StartClient
    | Dismiss
    | AwaitGone
    | DeleteQueue
    | Reset

  /**
   * `event` is the event whose handler found it current and did not act on it
   * yet; `fault` records an item sent to a queue that was deleted.
   */
  datatype System = System(
    flags: Flags,
    items: Items,
    worker: Worker,
    calls: Calls,
    life: seq<Command>,
    event: Option<Event>,
    fault: bool)

  const DOWN: Flags := Flags(None, false, false, false, false, false, false, false)

  const NOBODY: Worker := Worker(Gone, false, false, false)

  const NO_CALLS: Calls := Calls(0, multiset{}, 0, 0, {}, {})

  const BEGIN: System := System(DOWN, NO_ITEMS, NOBODY, NO_CALLS, [], None, false)

  // ---------- Lifecycle programs ----------

  function StopThen(client: bool, rest: seq<Command>): seq<Command> {
    [DropAll] + ([AwaitIdle] + ([Forbid] + ([AwaitDrained] + (if client then [StopClient] + rest else rest))))
  }

  function DestroyThen(rest: seq<Command>): seq<Command> {
    StopThen(true, [AwaitDrained] + ([DestroyClient] + rest))
  }

  function Deinit(client: bool): seq<Command> {
    var rest := [Dismiss, AwaitGone, Reset];
    if client then DestroyThen(rest) else rest
  }

  /** The cleanup after a reconfiguration that could not make its new client. */
  const TERMINAL: seq<Command> := [ClearClient, AwaitDrained, Dismiss, AwaitGone, DeleteQueue]

  /** How far a reconfiguration gets: no new client, a client that is not started, started, or fails to start. */
  datatype Extent = NoClient | NotStarted | Started | StartFailed(hasWorker: bool)

  function Reconfigured(extent: Extent): seq<Command> {
    match extent
    case NoClient => TERMINAL
    case NotStarted => [Install]
    case Started => [Install, EnsureWorker, Allow, StartClient]
    case StartFailed(hasWorker) =>
      var failed := DestroyThen(TERMINAL);
      [Install] + (if hasWorker then [EnsureWorker] + ([Allow] + failed) else failed)
  }

  function Reconfigure(client: bool, extent: Extent): seq<Command> {
    var rest := [ClearClient] + Reconfigured(extent);
    if client then DestroyThen(rest) else rest
  }

  /** The new client is started exactly if Wi-Fi is up; a worker that exists cannot fail to start. */
  predicate Possible(s: System, extent: Extent) {
    match extent
    case NoClient => true
    case NotStarted => !s.flags.wifi
    case Started => s.flags.wifi
    case StartFailed(hasWorker) => s.flags.wifi && (hasWorker || !s.worker.task)
  }

  // ---------- Steps ----------

  datatype Step =
    | Init
    | Operate(op: Operation)
    | Proceed
      // publishing threads
    | Enter
    | Return(client: nat)
    | Leave
      // observers
    | BeginObserving(publish: bool)
    | EndObserving(item: nat, publish: bool)
      // worker
    | Wake
    | CopyClient
    | Poll
    | EndRefresh
    | Take
    | Send(msgId: int)
    | Settle
      // events
    | SetWifi(up: bool)
    | Arrive(event: Event)
    | Handle

  /** The lifecycle operations a caller can begin; a start of a client may fail, and a reconnect starts none. */
  datatype Operation = OpStart(starts: bool) | OpStop | OpDeinit | OpReconfigure(extent: Extent)

  function Program(s: System, op: Operation): seq<Command> {
    var client := s.flags.client.Some?;
    match op
    case OpStart(starts) =>
      if !client then [] else if starts then [EnsureWorker, Allow, StartClient] else [EnsureWorker, Allow]
    case OpStop => StopThen(client, [])
    case OpDeinit => Deinit(client)
    case OpReconfigure(extent) => Reconfigure(client, extent)
  }

  /** A reconfiguration silences the relay before its first wait. */
  function Begun(s: System, op: Operation): System {
    if s.life != [] || (op.OpReconfigure? && !Possible(s, op.extent)) then s
    else if op.OpReconfigure? then s.(life := Program(s, op), flags := s.flags.(accepting := false, allowed := false))
    else s.(life := Program(s, op))
  }

  /** One statement of the running lifecycle operation; a wait that is not over changes nothing. */
  function Proceeded(s: System): System
    requires s.life != []
  {
    var s1 := s.(life := s.life[1..]);
    match s.life[0]
    case DropAll => s1.(flags := s.flags.(connected := false, refresh := false), items := AllDropped(s.items))
    case AwaitIdle => if s.worker.busy || s.calls.inFlight > 0 then s else s1
    case Forbid => s1.(flags := s.flags.(allowed := false))
    case AwaitDrained => if s.calls.inFlight > 0 then s else s1
    case StopClient => if s.event.Some? then s else s1.(flags := s.flags.(started := false))
    case DestroyClient =>
      if s.event.Some? then s
      else
        s1.(flags := s.flags.(started := false),
        calls := if s.flags.client.None? then s.calls
                 else s.calls.(destroyed := s.calls.destroyed + {s.flags.client.value}))
    case ClearClient =>
      s1.(flags := s.flags.(client := None, accepting := false, allowed := false, started := false, connected := false),
      items := AllDropped(s.items))
    case Install =>
      s1.(flags := s.flags.(client := Some(s.calls.made), accepting := true, allowed := true, started := false),
      calls := s.calls.(made := s.calls.made + 1))
    case EnsureWorker =>
      if s.worker.task then s1.(worker := s.worker.(running := true))
      else s1.(worker := s.worker.(point := Asleep, task := true, running := true))
    case Allow => s1.(flags := s.flags.(allowed := true))
    case StartClient => s1.(flags := s.flags.(started := s.flags.client.Some?))
    case Dismiss => s1.(worker := s.worker.(running := false))
    case AwaitGone => if s.worker.task || s.worker.busy then s else s1
    case DeleteQueue => s1.(flags := s.flags.(hasQueue := false))
    case Reset => s1.(flags := DOWN, items := Forgotten(s.items), worker := NOBODY)
  }

  predicate Observing(f: Flags) {
    f.accepting && f.wifi && f.connected
  }

  /** The check a handler makes before it acts on an event of the current client. */
  predicate Current(f: Flags, event: Event) {
    f.accepting && (event.Disconnected? || f.allowed)
  }

  /** Handling an event, without a second check. */
  function Handled(s: System, event: Event): System {
    match event
    case Connected => s.(event := None, flags := s.flags.(connected := true, refresh := true))
    case Published(msgId) => s.(event := None, items := Acknowledged(s.items, msgId))
    case Disconnected =>
      s.(event := None, flags := s.flags.(connected := false, refresh := false), items := AllDropped(s.items))
  }

  function Next(s: System, step: Step): System {
    match step
    case Init =>
      if s.life != [] || s.flags.client.Some? || s.flags.hasQueue then s
      else
        s.(flags := s.flags.(client := Some(s.calls.made), accepting := true, allowed := true, hasQueue := true),
        calls := s.calls.(made := s.calls.made + 1))
    case Operate(op) => Begun(s, op)
    case Proceed => if s.life == [] then s else Proceeded(s)
    case Enter =>
      if s.flags.client.None? || !s.flags.allowed then s
      else s.(calls := s.calls.(inFlight := s.calls.inFlight + 1, inside := s.calls.inside + multiset{s.flags.client.value}))
    case Return(client) =>
      if client !in s.calls.inside then s
      else s.(calls := s.calls.(inside := s.calls.inside - multiset{client}, returning := s.calls.returning + 1))
    case Leave =>
      if s.calls.returning == 0 then s
      else
        s.(calls := s.calls.(returning := s.calls.returning - 1,
                             inFlight := if s.calls.inFlight > 0 then s.calls.inFlight - 1 else 0))
    case BeginObserving(publish) => if Observing(s.flags) && publish then s.(items := Built(s.items)) else s
    case EndObserving(item, publish) =>
      if item !in s.items.hands then s
      else if !Observing(s.flags) || !publish then s.(items := GivenUp(s.items, item))
      else if !s.flags.hasQueue then s.(fault := true)
      else s.(items := Admitted(s.items, item))
    case Wake =>
      if s.worker.point != Asleep then s
      else if !s.worker.running then s.(worker := s.worker.(point := Gone, task := false))
      else if s.flags.refresh && s.flags.connected then
        s.(worker := s.worker.(point := Refreshing, busy := true), flags := s.flags.(refresh := false))
      else s.(worker := s.worker.(point := Draining))
    case CopyClient =>
      if s.worker.point != Refreshing || s.flags.client.None? || !s.flags.connected || !s.flags.allowed then s
      else s.(worker := s.worker.(point := Polling(s.flags.client.value)))
    case Poll =>
      if !s.worker.point.Polling? then s
      else
        var polled := s.worker.point.client;
        s.(worker := s.worker.(point := Refreshing),
        calls := if polled in s.calls.destroyed then s.calls.(stale := s.calls.stale + {polled}) else s.calls)
    case EndRefresh =>
      if s.worker.point == Refreshing then s.(worker := s.worker.(point := Draining, busy := false)) else s
    case Take =>
      if s.worker.point != Draining then s
      else if !s.flags.connected || !s.flags.hasQueue || s.items.queue == [] then s.(worker := s.worker.(point := Asleep))
      else s.(worker := s.worker.(point := Holding, busy := true), items := Taken(s.items))
    case Send(msgId) => if s.worker.point == Holding then s.(worker := s.worker.(point := Sent(msgId))) else s
    case Settle =>
      if !s.worker.point.Sent? || s.items.held == [] then s
      else
        s.(worker := s.worker.(point := Draining, busy := false),
        items := Settled(s.items, s.worker.point.msgId, s.flags.connected))
    case SetWifi(up) => s.(flags := s.flags.(wifi := up))
    case Arrive(event) =>
      if s.event.Some? || !s.flags.started || !Current(s.flags, event) then s else s.(event := Some(event))
    case Handle => if s.event.None? then s else Handled(s, s.event.value)
  }

  ghost function Run(steps: seq<Step>): System {
    if steps == [] then BEGIN else Next(Run(steps[..|steps| - 1]), steps[|steps| - 1])
  }

  /** The state the steps lead to from any other state. */
  ghost function Follow(s: System, steps: seq<Step>): System
    decreases |steps|
  {
    if steps == [] then s else Follow(Next(s, steps[0]), steps[1..])
  }

  lemma {:induction false} FollowAppend(s: System, a: seq<Step>, b: seq<Step>)
    ensures Follow(s, a + b) == Follow(Follow(s, a), b)
    decreases |a|
  {
    hide Next;
    if a == [] {
      assert a + b == b;
    } else {
      assert (a + b)[1..] == a[1..] + b;
      FollowAppend(Next(s, a[0]), a[1..], b);
    }
  }

  /** A run continued. */
  lemma {:induction false} RunThenFollow(steps: seq<Step>, more: seq<Step>)
    ensures Run(steps + more) == Follow(Run(steps), more)
    decreases |more|
  {
    hide Next;
    if more == [] {
      assert steps + more == steps;
    } else {
      var longer := steps + [more[0]];
      assert longer[..|longer| - 1] == steps;
      assert longer + more[1..] == steps + more;
      RunThenFollow(longer, more[1..]);
    }
  }

  /** Steps in which no lifecycle operation begins. */
  ghost predicate Unattended(steps: seq<Step>) {
    forall step <- steps :: !step.Operate? && !step.Init?
  }

  /** One state leads to another while no lifecycle operation begins. */
  ghost predicate Reaches(s: System, t: System) {
    exists steps :: Unattended(steps) && Follow(s, steps) == t
  }

  lemma ReachesItself(s: System)
    ensures Reaches(s, s)
  {
    assert Unattended([]) && Follow(s, []) == s;
  }

  lemma ReachesNext(s: System, t: System, step: Step)
    requires Reaches(s, t) && !step.Operate? && !step.Init?
    ensures Reaches(s, Next(t, step))
  {
    hide Next;
    var steps :| Unattended(steps) && Follow(s, steps) == t;
    FollowAppend(s, steps, [step]);
    assert [step][1..] == [];
    assert Follow(t, [step]) == Follow(Next(t, step), []) == Next(t, step);
    assert Unattended(steps + [step]);
  }

  lemma ReachesOn(s: System, t: System, u: System)
    requires Reaches(s, t) && Reaches(t, u)
    ensures Reaches(s, u)
  {
    hide Next;
    var a :| Unattended(a) && Follow(s, a) == t;
    var b :| Unattended(b) && Follow(t, b) == u;
    FollowAppend(s, a, b);
    assert Unattended(a + b);
  }

  // ---------- What the rest of a lifecycle operation relies on ----------

  /** A statement ahead needs publishing forbidden, and nothing before it forbids it. */
  predicate NeedsForbidden(life: seq<Command>) {
    && life != [] && life[0] != Forbid
    && (life[0] == StopClient || life[0] == DestroyClient || NeedsForbidden(life[1..]))
  }

  /** A statement ahead needs the calls drained, and nothing before it drains them. */
  predicate NeedsDrained(life: seq<Command>) {
    && life != [] && life[0] != AwaitDrained
    && (life[0] == StopClient || life[0] == DestroyClient || NeedsDrained(life[1..]))
  }

  /** A statement ahead needs the worker gone, and nothing before it waits for that. */
  predicate NeedsGone(life: seq<Command>) {
    && life != [] && life[0] != AwaitGone
    && (life[0] == Reset || life[0] == DeleteQueue || NeedsGone(life[1..]))
  }

  /** The client pointer is cleared before publishing, the worker or the client is started again or the operation ends. */
  predicate Clears(life: seq<Command>) {
    && life != [] && life[0] != Allow && life[0] != Install && life[0] != EnsureWorker && life[0] != StartClient
    && (life[0] == ClearClient || life[0] == Reset || Clears(life[1..]))
  }

  /** A statement ahead deletes the queue, and nothing before it empties it. */
  predicate NeedsEmpty(life: seq<Command>) {
    && life != [] && life[0] != ClearClient
    && (life[0] == DeleteQueue || NeedsEmpty(life[1..]))
  }

  /** Statements establish what later ones rely on. */
  predicate WellFormed(life: seq<Command>) {
    life != [] ==>
      && (NeedsDrained(life) ==> NeedsForbidden(life))
      && (life[0] == Install || life[0] == Allow ==> !NeedsForbidden(life[1..]))
      && (life[0] == Install ==> !NeedsEmpty(life[1..]))
      && (life[0] == DestroyClient ==> Clears(life[1..]))
      && (life[0] == EnsureWorker ==> !NeedsGone(life[1..]))
      && WellFormed(life[1..])
  }

  /** An operation can begin in any state. */
  predicate Fit(life: seq<Command>) {
    WellFormed(life) && !NeedsForbidden(life) && !NeedsDrained(life) && !NeedsGone(life) && !NeedsEmpty(life)
  }

  lemma First(c: Command, rest: seq<Command>)
    ensures ([c] + rest)[0] == c && ([c] + rest)[1..] == rest
  {
  }

  lemma StopThenFits(client: bool, rest: seq<Command>)
    requires WellFormed(rest) && (!client ==> !NeedsDrained(rest) && !NeedsForbidden(rest))
    requires !NeedsGone(rest) && !NeedsEmpty(rest)
    ensures Fit(StopThen(client, rest))
  {
    var l4 := if client then [StopClient] + rest else rest;
    First(StopClient, rest);
    assert WellFormed(l4) && !NeedsGone(l4) && !NeedsEmpty(l4) && (NeedsDrained(l4) ==> NeedsForbidden(l4));
    var l3 := [AwaitDrained] + l4;
    First(AwaitDrained, l4);
    assert WellFormed(l3) && !NeedsDrained(l3) && !NeedsGone(l3) && !NeedsEmpty(l3);
    var l2 := [Forbid] + l3;
    First(Forbid, l3);
    assert Fit(l2);
    First(AwaitIdle, l2);
    assert Fit([AwaitIdle] + l2);
    First(DropAll, [AwaitIdle] + l2);
  }

  lemma DestroyThenFits(rest: seq<Command>)
    requires WellFormed(rest) && Clears(rest) && !NeedsGone(rest) && !NeedsEmpty(rest)
    ensures Fit(DestroyThen(rest))
  {
    First(DestroyClient, rest);
    assert WellFormed([DestroyClient] + rest);
    First(AwaitDrained, [DestroyClient] + rest);
    StopThenFits(true, [AwaitDrained] + ([DestroyClient] + rest));
  }

  lemma ResetEndingFits()
    ensures Fit([Dismiss, AwaitGone, Reset]) && Clears([Dismiss, AwaitGone, Reset])
  {
    First(Dismiss, [AwaitGone, Reset]);
    First(AwaitGone, [Reset]);
    assert [Dismiss, AwaitGone, Reset] == [Dismiss] + [AwaitGone, Reset] && [AwaitGone, Reset] == [AwaitGone] + [Reset];
    assert Fit([AwaitGone, Reset]) && Clears([AwaitGone, Reset]);
  }

  lemma TerminalFits()
    ensures Fit(TERMINAL) && Clears(TERMINAL)
  {
    var t1 := [DeleteQueue];
    var t2 := [AwaitGone] + t1;
    First(AwaitGone, t1);
    assert t1[1..] == [] && WellFormed(t1) && !NeedsForbidden(t1) && !NeedsDrained(t1);
    assert WellFormed(t2) && !NeedsGone(t2) && !NeedsForbidden(t2) && !NeedsDrained(t2);
    var t3 := [Dismiss] + t2;
    First(Dismiss, t2);
    assert WellFormed(t3) && !NeedsGone(t3) && !NeedsForbidden(t3) && !NeedsDrained(t3);
    var t4 := [AwaitDrained] + t3;
    First(AwaitDrained, t3);
    assert WellFormed(t4) && !NeedsGone(t4) && !NeedsForbidden(t4) && !NeedsDrained(t4);
    First(ClearClient, t4);
    assert TERMINAL == [ClearClient] + t4;
  }

  lemma EndingsFit()
    ensures Fit([Dismiss, AwaitGone, Reset]) && Clears([Dismiss, AwaitGone, Reset])
    ensures Fit(TERMINAL) && Clears(TERMINAL)
  {
    hide Fit, Clears;
    ResetEndingFits();
    TerminalFits();
  }

  lemma PrefixFits(c: Command, rest: seq<Command>)
    requires Fit(rest) && c != StopClient && c != DestroyClient && c != Reset && c != DeleteQueue
    ensures Fit([c] + rest)
    ensures c == ClearClient ==> Clears([c] + rest)
  {
    First(c, rest);
  }

  lemma StartFits()
    ensures Fit([EnsureWorker, Allow, StartClient]) && Fit([EnsureWorker, Allow])
  {
    assert [StartClient] == [StartClient] + [] && [Allow] == [Allow] + [];
    assert [Allow, StartClient] == [Allow] + [StartClient] && [EnsureWorker, Allow] == [EnsureWorker] + [Allow];
    assert [EnsureWorker, Allow, StartClient] == [EnsureWorker] + [Allow, StartClient];
    PrefixFits(StartClient, []);
    PrefixFits(Allow, [StartClient]);
    PrefixFits(EnsureWorker, [Allow, StartClient]);
    PrefixFits(Allow, []);
    PrefixFits(EnsureWorker, [Allow]);
  }

  lemma ReconfiguredFits(extent: Extent)
    ensures Fit(Reconfigured(extent))
  {
    EndingsFit();
    match extent
    case NoClient =>
    case NotStarted => assert [Install][1..] == [];
    case Started =>
      StartFits();
      assert [Install, EnsureWorker, Allow, StartClient] == [Install] + [EnsureWorker, Allow, StartClient];
      PrefixFits(Install, [EnsureWorker, Allow, StartClient]);
    case StartFailed(hasWorker) =>
      hide DestroyThen;
      DestroyThenFits(TERMINAL);
      var failed := DestroyThen(TERMINAL);
      PrefixFits(Allow, failed);
      PrefixFits(EnsureWorker, [Allow] + failed);
      PrefixFits(Install, [EnsureWorker] + ([Allow] + failed));
      PrefixFits(Install, failed);
  }

  lemma ProgramFits(s: System, op: Operation)
    ensures Fit(Program(s, op))
  {
    hide DestroyThen, Reconfigured;
    EndingsFit();
    match op
    case OpStart(_) => StartFits();
    case OpStop => StopThenFits(s.flags.client.Some?, []);
    case OpDeinit => DestroyThenFits([Dismiss, AwaitGone, Reset]);
    case OpReconfigure(extent) =>
      ReconfiguredFits(extent);
      var rest := [ClearClient] + Reconfigured(extent);
      PrefixFits(ClearClient, Reconfigured(extent));
      DestroyThenFits(rest);
  }

  // ---------- The invariant ----------

  ghost predicate FenceSound(s: System) {
    && WellFormed(s.life)
    && s.calls.inFlight == |s.calls.inside| + s.calls.returning
    && (NeedsForbidden(s.life) ==> !s.flags.allowed)
    && (NeedsDrained(s.life) ==> s.calls.inFlight == 0)
  }

  ghost predicate ClientsSound(s: System) {
    && (s.flags.client.Some? ==> s.flags.client.value < s.calls.made)
    && (forall c <- s.calls.destroyed :: c < s.calls.made)
    && (forall c <- s.calls.inside :: c !in s.calls.destroyed)
    && (s.flags.client.Some? && s.flags.client.value in s.calls.destroyed ==> !s.flags.allowed && Clears(s.life))
  }

  ghost predicate WorkerSound(s: System) {
    && (s.worker.busy <==> s.worker.point.Refreshing? || s.worker.point.Polling? || s.worker.point.Holding? || s.worker.point.Sent?)
    && (s.worker.task <==> !s.worker.point.Gone?)
    && |s.items.held| == (if s.worker.point.Holding? || s.worker.point.Sent? then 1 else 0)
    && (NeedsGone(s.life) ==> s.worker.point.Gone?)
    && (NeedsEmpty(s.life) ==> !s.flags.accepting && s.items.queue == [])
  }

  ghost predicate Invariant(s: System) {
    FenceSound(s) && ClientsSound(s) && WorkerSound(s) && Conserved(s.items)
  }

  lemma ProceedKeepsFence(s: System)
    requires Invariant(s) && s.life != []
    ensures FenceSound(Proceeded(s))
  {
    hide Conserved, AllDropped, Forgotten, WorkerSound, NeedsGone, NeedsEmpty, ClientsSound, Clears;
    match s.life[0]
    case DropAll => assert FenceSound(Proceeded(s));
    case AwaitIdle => assert FenceSound(Proceeded(s));
    case Forbid => assert FenceSound(Proceeded(s));
    case AwaitDrained => assert FenceSound(Proceeded(s));
    case StopClient => assert FenceSound(Proceeded(s));
    case DestroyClient => assert FenceSound(Proceeded(s));
    case ClearClient => assert FenceSound(Proceeded(s));
    case Install => assert FenceSound(Proceeded(s));
    case EnsureWorker => assert FenceSound(Proceeded(s));
    case Allow => assert FenceSound(Proceeded(s));
    case StartClient => assert FenceSound(Proceeded(s));
    case Dismiss => assert FenceSound(Proceeded(s));
    case AwaitGone => assert FenceSound(Proceeded(s));
    case DeleteQueue => assert FenceSound(Proceeded(s));
    case Reset => assert FenceSound(Proceeded(s));
  }

  lemma ProceedKeepsClients(s: System)
    requires Invariant(s) && s.life != []
    ensures ClientsSound(Proceeded(s))
  {
    hide Conserved, AllDropped, Forgotten, WorkerSound, NeedsGone, NeedsEmpty;
    match s.life[0]
    case DestroyClient =>
      NobodyInside(s);
      assert ClientsSound(Proceeded(s));
    case DropAll => assert ClientsSound(Proceeded(s));
    case AwaitIdle => assert ClientsSound(Proceeded(s));
    case Forbid => assert ClientsSound(Proceeded(s));
    case AwaitDrained => assert ClientsSound(Proceeded(s));
    case StopClient => assert ClientsSound(Proceeded(s));
    case ClearClient => assert ClientsSound(Proceeded(s));
    case Install => assert ClientsSound(Proceeded(s));
    case EnsureWorker => assert ClientsSound(Proceeded(s));
    case Allow => assert ClientsSound(Proceeded(s));
    case StartClient => assert ClientsSound(Proceeded(s));
    case Dismiss => assert ClientsSound(Proceeded(s));
    case AwaitGone => assert ClientsSound(Proceeded(s));
    case DeleteQueue => assert ClientsSound(Proceeded(s));
    case Reset => assert ClientsSound(Proceeded(s));
  }

  lemma NobodyInside(s: System)
    requires FenceSound(s) && s.life != [] && (s.life[0] == StopClient || s.life[0] == DestroyClient)
    ensures s.calls.inside == multiset{} && !s.flags.allowed
  {
    assert |s.calls.inside| == 0;
  }

  lemma ProceedKeepsWorker(s: System)
    requires Invariant(s) && s.life != []
    ensures WorkerSound(Proceeded(s)) && Conserved(Proceeded(s).items)
  {
    hide Conserved, FenceSound, ClientsSound, NeedsForbidden, NeedsDrained, Clears;
    WellFormedOf(s);
    DroppingConserves(s.items);
    match s.life[0]
    case DropAll => assert WorkerSound(Proceeded(s));
    case AwaitIdle => assert WorkerSound(Proceeded(s));
    case Forbid => assert WorkerSound(Proceeded(s));
    case AwaitDrained => assert WorkerSound(Proceeded(s));
    case StopClient => assert WorkerSound(Proceeded(s));
    case DestroyClient => assert WorkerSound(Proceeded(s));
    case ClearClient => assert WorkerSound(Proceeded(s));
    case Install => assert WorkerSound(Proceeded(s));
    case EnsureWorker => assert WorkerSound(Proceeded(s));
    case Allow => assert WorkerSound(Proceeded(s));
    case StartClient => assert WorkerSound(Proceeded(s));
    case Dismiss => assert WorkerSound(Proceeded(s));
    case AwaitGone => assert WorkerSound(Proceeded(s));
    case DeleteQueue => assert WorkerSound(Proceeded(s));
    case Reset => assert WorkerSound(Proceeded(s));
  }

  lemma WellFormedOf(s: System)
    requires FenceSound(s)
    ensures WellFormed(s.life)
  {
  }

  lemma CallsKeepInvariant(s: System, step: Step)
    requires Invariant(s) && (step.Enter? || step.Return? || step.Leave?)
    ensures Invariant(Next(s, step))
  {
    hide Conserved, WorkerSound;
    assert Next(s, step).items == s.items && Next(s, step).worker == s.worker
        && Next(s, step).life == s.life && Next(s, step).flags == s.flags;
    SameWorker(s, Next(s, step));
  }

  lemma SameWorker(s: System, s': System)
    requires WorkerSound(s) && s'.items == s.items && s'.worker == s.worker && s'.life == s.life && s'.flags == s.flags
    ensures WorkerSound(s')
  {
  }

  lemma ObserversKeepInvariant(s: System, step: Step)
    requires Invariant(s) && (step.BeginObserving? || step.EndObserving?)
    ensures Invariant(Next(s, step))
  {
    hide Conserved, FenceSound, ClientsSound;
    SameFence(s, Next(s, step));
    if step.BeginObserving? {
      BuildingConserves(s.items);
      assert WorkerSound(Next(s, step)) && Conserved(Next(s, step).items);
    } else if step.item in s.items.hands {
      AdmittingConserves(s.items, step.item);
      assert WorkerSound(Next(s, step)) && Conserved(Next(s, step).items);
    }
  }

  lemma TakingKeepsInvariant(s: System)
    requires Invariant(s)
    ensures Invariant(Next(s, Take))
  {
    hide Conserved, FenceSound, ClientsSound;
    SameFence(s, Next(s, Take));
    if s.items.queue != [] && s.items.held == [] {
      TakingConserves(s.items);
    }
  }

  lemma SettlingKeepsInvariant(s: System)
    requires Invariant(s)
    ensures Invariant(Next(s, Settle))
  {
    hide Conserved, FenceSound, ClientsSound;
    SameFence(s, Next(s, Settle));
    if s.items.held != [] && s.worker.point.Sent? {
      SettlingConserves(s.items, s.worker.point.msgId, s.flags.connected);
    }
  }

  lemma HandlingKeepsInvariant(s: System)
    requires Invariant(s)
    ensures Invariant(Next(s, Handle))
  {
    hide Conserved, FenceSound, ClientsSound, PendingItems;
    SameFence(s, Next(s, Handle));
    if s.event.Some? {
      match s.event.value
      case Published(msgId) =>
        AcknowledgingConserves(s.items, msgId);
        assert WorkerSound(Next(s, Handle)) && Conserved(Next(s, Handle).items);
      case Connected => assert WorkerSound(Next(s, Handle));
      case Disconnected =>
        DroppingConserves(s.items);
        assert WorkerSound(Next(s, Handle)) && Conserved(Next(s, Handle).items);
    }
  }

  /** The worker's way through a refresh. */
  lemma RefreshingKeepsInvariant(s: System, step: Step)
    requires Invariant(s) && (step.Wake? || step.CopyClient? || step.Poll? || step.EndRefresh?)
    ensures Invariant(Next(s, step))
  {
    hide Conserved, FenceSound, ClientsSound;
    SameFence(s, Next(s, step));
    match step
    case Wake => assert WorkerSound(Next(s, step));
    case CopyClient => assert WorkerSound(Next(s, step));
    case Poll => assert WorkerSound(Next(s, step));
    case EndRefresh => assert WorkerSound(Next(s, step));
  }

  lemma SameFence(s: System, s': System)
    requires FenceSound(s) && ClientsSound(s) && s'.life == s.life && s'.calls.(stale := s.calls.stale) == s.calls
    requires s'.flags.client == s.flags.client && s'.flags.allowed == s.flags.allowed
    ensures FenceSound(s') && ClientsSound(s')
  {
  }

  lemma OperateKeepsInvariant(s: System, op: Operation)
    requires Invariant(s)
    ensures Invariant(Next(s, Operate(op)))
  {
    hide Conserved, Program;
    ProgramFits(s, op);
  }

  lemma StepKeepsInvariant(s: System, step: Step)
    requires Invariant(s)
    ensures Invariant(Next(s, step))
  {
    hide Conserved, Proceeded, Program;
    match step
    case Init => assert Invariant(Next(s, Init));
    case Operate(op) =>
      OperateKeepsInvariant(s, op);
    case Proceed =>
      if s.life != [] {
        ProceedKeepsFence(s);
        ProceedKeepsClients(s);
        ProceedKeepsWorker(s);
      }
    case Enter => CallsKeepInvariant(s, step);
    case Return(_) => CallsKeepInvariant(s, step);
    case Leave => CallsKeepInvariant(s, step);
    case Wake => RefreshingKeepsInvariant(s, step);
    case CopyClient => RefreshingKeepsInvariant(s, step);
    case Poll => RefreshingKeepsInvariant(s, step);
    case EndRefresh => RefreshingKeepsInvariant(s, step);
    case Send(_) => assert Invariant(Next(s, step));
    case SetWifi(_) => assert Invariant(Next(s, step));
    case Arrive(_) => assert Invariant(Next(s, step));
    case BeginObserving(_) => ObserversKeepInvariant(s, step);
    case EndObserving(_, _) => ObserversKeepInvariant(s, step);
    case Take => TakingKeepsInvariant(s);
    case Settle => SettlingKeepsInvariant(s);
    case Handle => HandlingKeepsInvariant(s);
  }

  lemma {:induction false} InvariantHolds(steps: seq<Step>)
    ensures Invariant(Run(steps))
    decreases |steps|
  {
    hide Next, Invariant;
    if steps == [] {
      BeginIsSound();
    } else {
      InvariantHolds(steps[..|steps| - 1]);
      StepKeepsInvariant(Run(steps[..|steps| - 1]), steps[|steps| - 1]);
    }
  }

  lemma BeginIsSound()
    ensures Invariant(BEGIN)
  {
  }

  // ---------- The guarantees ----------

  /**
   * In every interleaving, the client is stopped or destroyed only while no
   * thread is inside a publish or enqueue call on it and none can enter.
   */
  lemma StoppedOnlyWhenIdle(steps: seq<Step>)
    requires var life := Run(steps).life; life != [] && (life[0] == StopClient || life[0] == DestroyClient)
    ensures Run(steps).calls.inside == multiset{} && !Run(steps).flags.allowed
  {
    InvariantHolds(steps);
    hide Run;
    NobodyInside(Run(steps));
  }

  /** In every interleaving, no thread is inside a publish or enqueue call on a destroyed client. */
  lemma NoCallAfterDestroy(steps: seq<Step>, client: nat)
    requires client in Run(steps).calls.inside
    ensures client !in Run(steps).calls.destroyed
  {
    InvariantHolds(steps);
  }

  /**
   * In every interleaving of observers, worker, acknowledgements, disconnects
   * and teardown, every item built is in exactly one place and freed at most
   * once, and acknowledged, queued, held and waiting items never exceed the
   * accepted ones.
   */
  lemma ItemsAreConserved(steps: seq<Step>, item: nat)
    ensures var s := Run(steps).items;
            && s.hands[item] + multiset(s.queue)[item] + multiset(s.held)[item] + PendingItems(s.pending)[item] + s.freed[item]
            == (if item < s.built then 1 else 0)
            && s.acked + |s.queue| + |s.held| + |s.pending| <= s.accepted
  {
    InvariantHolds(steps);
    hide Run;
    EachItemInOnePlace(Run(steps).items, item);
  }

  /** Teardown leaves no item behind: all are freed, except those observers are still building. */
  lemma DeinitLeavesNone(steps: seq<Step>)
    requires var life := Run(steps).life; life != [] && life[0] == Reset
    ensures LeftNone(Next(Run(steps), Proceed).items)
  {
    InvariantHolds(steps);
    hide Run;
    ResetLeavesNone(Run(steps));
  }

  ghost predicate LeftNone(s: Items) {
    s.queue == [] && s.held == [] && s.pending == [] && s.hands + s.freed == All(s.built)
  }

  lemma ResetLeavesNone(s: System)
    requires Invariant(s) && s.life != [] && s.life[0] == Reset
    ensures LeftNone(Next(s, Proceed).items)
  {
    hide All, FenceSound, ClientsSound;
    var items := Forgotten(s.items);
    assert s.items.held == [];
    DroppingConserves(s.items);
    assert items.hands + multiset(items.queue) + multiset(items.held) + PendingItems(items.pending) + items.freed
        == items.hands + items.freed;
  }

  /** The queue is deleted only when it is empty and nobody can send to it. */
  lemma DeletedQueueIsEmpty(steps: seq<Step>)
    requires var life := Run(steps).life; life != [] && life[0] == DeleteQueue
    ensures Run(steps).items.queue == [] && !Run(steps).flags.accepting
  {
    InvariantHolds(steps);
  }
}
