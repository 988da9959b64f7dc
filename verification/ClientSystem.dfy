/** The ANCS client as a concurrent system, fenced by the session generation. */
module ClientSystem {

  // The thread that runs the stack's callbacks, the timers and the worker share
  // the session and a bounded work queue that drops when it is full. A stale
  // item or request is recognised by the generation it carries.

  import opened ClientSession
  import RequestQueue

  const WORK_QUEUE_LENGTH: nat := 24

  datatype Work = Event | Fragment | WriteResult | Reset

  /** A work item, tagged when it is built; `origin` is the generation its radio packet arrived under. */
  datatype Item = Item(work: Work, content: nat, origin: nat, generation: nat)

  /** Where the callback thread stands. Callbacks run one at a time. */
  datatype Callback =
    | Idle
    | OwesReset(generation: nat)
    | Receiving(work: Work, content: nat, origin: nat)
    | Tagged(item: Item)

  /** Where the worker stands in its loop. */
  datatype Point =
    | Top
    | Waiting
    | Taken(item: Item)
    | Accepted(item: Item)
    | Serving
    | Writing

  /** The worker's session: pending events, and the active request with the generation it was validated under. */
  datatype Worker = Worker(
    point: Point,
    generation: nat,
    pending: seq<Item>,
    active: bool,
    event: Item,
    issuedUnder: nat)

  /** A fragment given to the parser of a request; a request validated and then written for an event. */
  datatype Trace =
    | Fed(fragment: Item, requestGeneration: nat)
    | Issued(event: Item, validatedUnder: nat, writtenUnder: nat)

  datatype System = System(client: Client, queue: seq<Item>, callback: Callback, worker: Worker, trace: seq<Trace>)

  const NO_EVENT: Item := Item(Event, 0, 0, 0)

  const START: System := System(INITIAL, [], Idle, Worker(Top, 0, [], false, NO_EVENT, 0), [])

  // ---------- Steps ----------

  /** What becomes of an event; a removal may leave any of the pending ones. */
  datatype Disposal = Suppressed | Queued | Overflowed | Removed(kept: seq<Item>)

  datatype Step =
      // any thread: a critical section that keeps the generation
    | Section(section: ClientSession.Section)
      // callback thread
    | Advance(section: ClientSession.Section)
    | OfferReset
    | Receive(work: Work, content: nat)
    | Tag
    | Offer
    | Drop
      // worker
    | CheckGeneration
    | Take
    | TimeOut
    | CompareGeneration
    | Process(disposal: Disposal)
    | Start(registered: bool)
    | Reissue(registered: bool)
    | Write(accepted: bool)
    | Finish
    | Leave

  /** The queue never blocks its sender: an item that does not fit is dropped. */
  function Enqueued(queue: seq<Item>, item: Item): seq<Item> {
    if |queue| < WORK_QUEUE_LENGTH then queue + [item] else queue
  }

  function ResetWorker(w: Worker, generation: nat): Worker {
    w.(generation := generation, pending := [], active := false)
  }

  /** Connecting, disconnecting and a service change run as callbacks; the last two owe a reset item. */
  function Advanced(s: System, section: ClientSession.Section): System {
    if s.callback != Idle || !AdvancesGeneration(s.client, section) then s
    else
      var client := After(s.client, section);
      s.(client := client, callback := if section.Connect? then Idle else OwesReset(client.generation))
  }

  /** An event is queued only if there is room, and overflows only if there is none. */
  predicate Disposes(pending: seq<Item>, disposal: Disposal) {
    match disposal
    case Suppressed => true
    case Queued => |pending| < RequestQueue.CAPACITY
    case Overflowed => |pending| >= RequestQueue.CAPACITY
    case Removed(kept) => forall item <- kept :: item in pending
  }

  function Disposed(pending: seq<Item>, item: Item, disposal: Disposal): seq<Item> {
    if disposal.Queued? then pending + [item] else if disposal.Removed? then disposal.kept else pending
  }

  /** What an accepted item does to the worker. */
  function Processed(s: System, disposal: Disposal): System
    requires s.worker.point.Accepted?
  {
    var item := s.worker.point.item;
    var w := s.worker.(point := Serving);
    match item.work
    case Event =>
      if Disposes(w.pending, disposal) then s.(worker := w.(pending := Disposed(w.pending, item, disposal))) else s
    case Fragment => s.(worker := w, trace := if w.active then s.trace + [Fed(item, w.issuedUnder)] else s.trace)
    case WriteResult => s.(worker := w)
    case Reset => s.(worker := ResetWorker(w, item.generation))
  }

  /**
   * The request for an event may be written if the session is valid at that
   * moment, else it is abandoned. The parser is prepared for its answer.
   */
  function Validated(s: System, event: Item, registered: bool): System {
    if RequestValid(s.client, s.worker.generation, registered) then
      s.(worker := s.worker.(point := Writing, active := true, event := event, issuedUnder := s.client.generation))
    else s.(worker := s.worker.(active := false, event := event))
  }

  /** One step of one thread; a step that is not enabled changes nothing. */
  function Next(s: System, step: Step): System {
    match step
    case Section(section) => if AdvancesGeneration(s.client, section) then s else s.(client := After(s.client, section))
    case Advance(section) => Advanced(s, section)
    case OfferReset =>
      if s.callback.OwesReset? then
        s.(callback := Idle,
        queue := Enqueued(s.queue, Item(Work.Reset, 0, s.callback.generation, s.callback.generation)))
      else s
    case Receive(work, content) =>
      if s.callback == Idle && work != Work.Reset && s.client.link.connected && !s.client.link.closing
      then s.(callback := Receiving(work, content, s.client.generation)) else s
    case Tag =>
      if s.callback.Receiving?
      then s.(callback := Tagged(Item(s.callback.work, s.callback.content, s.callback.origin, s.client.generation))) else s
    case Offer => if s.callback.Tagged? then s.(callback := Idle, queue := Enqueued(s.queue, s.callback.item)) else s
    case Drop => if s.callback.Tagged? || s.callback.Receiving? then s.(callback := Idle) else s
    case CheckGeneration =>
      if s.worker.point != Top then s
      else
        var w := s.worker.(point := Waiting);
        s.(worker := if w.generation != s.client.generation then ResetWorker(w, s.client.generation) else w)
    case Take =>
      if s.worker.point == Waiting && s.queue != []
      then s.(worker := s.worker.(point := Taken(s.queue[0])), queue := s.queue[1..]) else s
    case TimeOut => if s.worker.point == Waiting then s.(worker := s.worker.(point := Serving)) else s
    case CompareGeneration =>
      if !s.worker.point.Taken? then s
      else
        var item := s.worker.point.item;
        s.(worker := s.worker.(point := if item.generation == s.client.generation then Accepted(item) else Top))
    case Process(disposal) => if s.worker.point.Accepted? then Processed(s, disposal) else s
    case Start(registered) =>
      if s.worker.point == Serving && !s.worker.active && s.worker.pending != []
      then Validated(s.(worker := s.worker.(pending := s.worker.pending[1..])), s.worker.pending[0], registered) else s
    case Reissue(registered) =>
      if s.worker.point == Serving && s.worker.active then Validated(s, s.worker.event, registered) else s
    case Write(accepted) =>
      if s.worker.point != Writing then s
      else
        s.(worker := s.worker.(point := Serving),
        trace := if accepted then s.trace + [Issued(s.worker.event, s.worker.issuedUnder, s.client.generation)]
                 else s.trace)
    case Finish => if s.worker.point == Serving then s.(worker := s.worker.(active := false)) else s
    case Leave => if s.worker.point == Serving then s.(worker := s.worker.(point := Top)) else s
  }

  /** The system after any interleaving. */
  ghost function Run(steps: seq<Step>): System {
    if steps == [] then START else Next(Run(steps[..|steps| - 1]), steps[|steps| - 1])
  }

  // ---------- The invariant ----------

  ghost predicate ItemSound(item: Item, generation: nat) {
    item.origin == item.generation <= generation
  }

  /** The item makes the worker start over: it is a reset or belongs to another generation. */
  ghost predicate Stops(item: Item, generation: nat) {
    item.work == Work.Reset || item.generation != generation
  }

  /** The active request belongs to an earlier generation. */
  ghost predicate Stale(s: System) {
    s.worker.active && s.worker.generation != s.client.generation
  }

  ghost predicate QueueSound(s: System) {
    && |s.queue| <= WORK_QUEUE_LENGTH
    && forall item <- s.queue :: ItemSound(item, s.client.generation)
  }

  ghost predicate CallbackSound(s: System) {
    match s.callback
    case Idle => true
    case OwesReset(generation) =>
      generation == s.client.generation && forall item <- s.queue :: item.generation < generation
    case Receiving(_, _, origin) => origin == s.client.generation
    case Tagged(item) => item.origin == item.generation == s.client.generation
  }

  /** While the worker's generation is the current one, everything it holds belongs to it. */
  ghost predicate WorkerSound(s: System) {
    && s.worker.generation <= s.client.generation
    && (s.worker.active ==> s.worker.issuedUnder == s.worker.generation)
    && (s.worker.point == Writing ==> s.worker.active && s.worker.event.origin == s.worker.issuedUnder)
    && (s.worker.generation == s.client.generation ==>
          && (forall item <- s.worker.pending :: item.origin == s.worker.generation)
          && (s.worker.active ==> s.client.link.connected && s.worker.event.origin == s.worker.generation))
  }

  /** A stale request meets a stopping item before anything else can reach its parser. */
  ghost predicate Fenced(s: System) {
    match s.worker.point
    case Waiting => Stale(s) ==> s.callback.OwesReset? || (s.queue != [] && Stops(s.queue[0], s.client.generation))
    case Taken(item) =>
      ItemSound(item, s.client.generation) && (Stale(s) ==> Stops(item, s.client.generation))
    case Accepted(item) =>
      && ItemSound(item, s.client.generation)
      && s.worker.generation <= item.generation
      && (s.worker.active && item.work != Work.Reset ==> s.worker.generation == item.generation)
    case _ => true
  }

  /** Nothing crossed a generation so far. */
  ghost predicate TraceSound(s: System) {
    forall t <- s.trace ::
      match t
      case Fed(fragment, requestGeneration) => fragment.origin == requestGeneration
      case Issued(event, validatedUnder, writtenUnder) => event.origin == validatedUnder <= writtenUnder
  }

  ghost predicate Invariant(s: System) {
    QueueSound(s) && CallbackSound(s) && WorkerSound(s) && Fenced(s) && TraceSound(s)
  }

  lemma SectionKeepsInvariant(s: System, section: ClientSession.Section)
    requires Invariant(s) && !AdvancesGeneration(s.client, section)
    ensures Invariant(s.(client := After(s.client, section)))
  {
    hide After, AdvancesGeneration;
    SectionAdvancesGeneration(s.client, section);
  }

  /** A connection owes no reset: it starts from a disconnected session, whose requests are stale already. */
  lemma AdvanceKeepsInvariant(s: System, section: ClientSession.Section)
    requires Invariant(s)
    ensures Invariant(Advanced(s, section))
  {
    SectionAdvancesGeneration(s.client, section);
    if section.Connect? && AdvancesGeneration(s.client, section) {
      assert !s.client.link.connected;
    }
    hide After, AdvancesGeneration;
    assert s.queue != [] ==> s.queue[0] in s.queue;
  }

  lemma CallbackKeepsInvariant(s: System, step: Step)
    requires Invariant(s) && (step.OfferReset? || step.Receive? || step.Tag? || step.Offer? || step.Drop?)
    ensures Invariant(Next(s, step))
  {
    hide After, AdvancesGeneration;
  }

  lemma WorkerKeepsInvariant(s: System, step: Step)
    requires Invariant(s)
    requires step.CheckGeneration? || step.Take? || step.TimeOut? || step.CompareGeneration? || step.Finish? || step.Leave?
    ensures Invariant(Next(s, step))
  {
    hide After, AdvancesGeneration;
  }

  lemma ProcessKeepsInvariant(s: System, disposal: Disposal)
    requires Invariant(s) && s.worker.point.Accepted?
    ensures Invariant(Processed(s, disposal))
  {
  }

  lemma ValidationKeepsInvariant(s: System, event: Item, registered: bool)
    requires Invariant(s) && s.worker.point == Serving
    requires s.worker.generation == s.client.generation ==> event.origin == s.worker.generation
    ensures Invariant(Validated(s, event, registered))
  {
  }

  lemma WritingKeepsInvariant(s: System, accepted: bool)
    requires Invariant(s)
    ensures Invariant(Next(s, Write(accepted)))
  {
  }

  lemma StepKeepsInvariant(s: System, step: Step)
    requires Invariant(s)
    ensures Invariant(Next(s, step))
  {
    hide After, AdvancesGeneration, Advanced, Processed, Validated;
    match step
    case Section(section) =>
      if !AdvancesGeneration(s.client, section) {
        SectionKeepsInvariant(s, section);
      }
    case Advance(section) => AdvanceKeepsInvariant(s, section);
    case Process(disposal) =>
      if s.worker.point.Accepted? {
        ProcessKeepsInvariant(s, disposal);
      }
    case Start(registered) =>
      if s.worker.point == Serving && !s.worker.active && s.worker.pending != [] {
        assert s.worker.pending[0] in s.worker.pending;
        assert forall item <- s.worker.pending[1..] :: item in s.worker.pending;
        ValidationKeepsInvariant(s.(worker := s.worker.(pending := s.worker.pending[1..])), s.worker.pending[0], registered);
      }
    case Reissue(registered) =>
      if s.worker.point == Serving && s.worker.active {
        ValidationKeepsInvariant(s, s.worker.event, registered);
      }
    case Write(accepted) => WritingKeepsInvariant(s, accepted);
    case OfferReset => CallbackKeepsInvariant(s, step);
    case Receive(_, _) => CallbackKeepsInvariant(s, step);
    case Tag => CallbackKeepsInvariant(s, step);
    case Offer => CallbackKeepsInvariant(s, step);
    case Drop => CallbackKeepsInvariant(s, step);
    case _ => WorkerKeepsInvariant(s, step);
  }

  lemma {:induction false} InvariantHolds(steps: seq<Step>)
    ensures Invariant(Run(steps))
    decreases |steps|
  {
    hide Next, Invariant;
    if steps == [] {
      assert Invariant(START) by {
        StartIsSound();
      }
    } else {
      InvariantHolds(steps[..|steps| - 1]);
      StepKeepsInvariant(Run(steps[..|steps| - 1]), steps[|steps| - 1]);
    }
  }

  lemma StartIsSound()
    ensures Invariant(START)
  {
  }

  /**
   * In every interleaving, with items dropped whenever the queue is full, a
   * fragment received under one generation never reaches the parser of a
   * request issued under another.
   */
  lemma FragmentsStayInTheirGeneration(steps: seq<Step>, i: nat)
    requires i < |Run(steps).trace| && Run(steps).trace[i].Fed?
    ensures Run(steps).trace[i].fragment.origin == Run(steps).trace[i].requestGeneration
  {
    hide Next;
    InvariantHolds(steps);
    assert Run(steps).trace[i] in Run(steps).trace;
  }

  /**
   * In every interleaving, a request that was written had been validated under
   * the generation its event was received under, and not after it was written.
   */
  lemma RequestsAreValidated(steps: seq<Step>, i: nat)
    requires i < |Run(steps).trace| && Run(steps).trace[i].Issued?
    ensures Run(steps).trace[i].event.origin == Run(steps).trace[i].validatedUnder <= Run(steps).trace[i].writtenUnder
  {
    hide Next;
    InvariantHolds(steps);
    assert Run(steps).trace[i] in Run(steps).trace;
  }

  // ---------- Between the validation and the write ----------

  /** The state the steps lead to from any other state. */
  ghost function Follow(s: System, steps: seq<Step>): System
    decreases |steps|
  {
    if steps == [] then s else Follow(Next(s, steps[0]), steps[1..])
  }

  lemma {:induction false} RunThenFollow(steps: seq<Step>, more: seq<Step>)
    ensures Run(steps + more) == Follow(Run(steps), more)
    decreases |more|
  {
    hide Next;
    if more == [] {
      assert steps + more == steps;
    } else {
      var longer := steps + [more[0]];
      assert longer[..|longer| - 1] == steps;
      assert longer + more[1..] == steps + more;
      RunThenFollow(longer, more[1..]);
    }
  }

  /** A connection, a disconnection or a service change takes effect. */
  predicate ChangesGeneration(s: System, step: Step) {
    step.Advance? && s.callback == Idle && AdvancesGeneration(s.client, step.section)
  }

  ghost predicate SomeChange(s: System, steps: seq<Step>)
    decreases |steps|
  {
    steps != [] && (ChangesGeneration(s, steps[0]) || SomeChange(Next(s, steps[0]), steps[1..]))
  }

  /** A worker about to write does nothing else, and only a change of the connection moves the generation. */
  lemma WaitingToWrite(s: System, step: Step)
    requires s.worker.point == Writing && !step.Write?
    ensures Next(s, step).worker == s.worker
    ensures Next(s, step).client.generation == s.client.generation + (if ChangesGeneration(s, step) then 1 else 0)
  {
    hide After, AdvancesGeneration;
    if step.Section? || step.Advance? {
      SectionAdvancesGeneration(s.client, step.section);
    }
  }

  lemma {:induction false} GenerationMovesIff(s: System, steps: seq<Step>)
    requires s.worker.point == Writing && forall step <- steps :: !step.Write?
    ensures var t := Follow(s, steps);
            && t.worker == s.worker && t.client.generation >= s.client.generation
            && (t.client.generation == s.client.generation <==> !SomeChange(s, steps))
    decreases |steps|
  {
    hide Next, ChangesGeneration;
    if steps != [] {
      assert steps[0] in steps && forall step <- steps[1..] :: step in steps;
      WaitingToWrite(s, steps[0]);
      GenerationMovesIff(Next(s, steps[0]), steps[1..]);
    }
  }

  /**
   * The write is not checked again: it falls under the generation of its event
   * if and only if no connection, disconnection or service change takes effect
   * between the validation and the write.
   */
  lemma WrittenInItsGenerationIff(before: seq<Step>, between: seq<Step>)
    requires Run(before).worker.point == Writing && Run(before).worker.issuedUnder == Run(before).client.generation
    requires forall step <- between :: !step.Write?
    ensures var s, t := Run(before), Run(before + between + [Write(true)]);
            && t.trace != [] && t.trace[|t.trace| - 1].Issued?
            && var written := t.trace[|t.trace| - 1];
            && written.event.origin == s.worker.issuedUnder
            && (written.writtenUnder == written.event.origin <==> !SomeChange(s, between))
  {
    var s := Run(before);
    InvariantHolds(before);
    RunThenFollow(before, between);
    var ready := before + between;
    assert (ready + [Write(true)])[..|ready|] == ready;
    GenerationMovesIff(s, between);
  }

  // ---------- A run in which the write falls under another generation ----------

  ghost predicate Reachable(s: System) {
    exists steps :: Run(steps) == s
  }

  lemma Onward(s: System, step: Step)
    requires Reachable(s)
    ensures Reachable(Next(s, step))
  {
    hide Next;
    var steps :| Run(steps) == s;
    assert (steps + [step])[..|steps|] == steps;
    assert Run(steps + [step]) == Next(s, step);
  }

  lemma StartIsReachable()
    ensures Reachable(START)
  {
    assert Run([]) == START;
  }

  /** The client while it prepares its first link. */
  function Preparing(link: Link, handles: Handles, deadline: int): System {
    START.(client := Client(link, handles, Timing(deadline, 90000, 0, 0, 0, 0, 0), 1, 0, 1))
  }

  const SECURED: Link := Link(true, true, true, false, true, false, false, false, false, false)

  /** A peer connects, and the link is secured and negotiated. */
  lemma LinkIsSecured()
    ensures Reachable(Preparing(SECURED, NO_HANDLES, 15001))
  {
    hide Reachable;
    StartIsReachable();
    Onward(START, Advance(Connect(1, 0)));
    var s1 := Preparing(NO_LINK.(connected := true), NO_HANDLES, 30000);
    assert Next(START, Advance(Connect(1, 0))) == s1;
    Onward(s1, Section(AuthSucceed(1)));
    var s2 := Preparing(SECURED.(mtuReady := false), NO_HANDLES, 15001);
    assert Next(s1, Section(AuthSucceed(1))) == s2;
    Onward(s2, Section(ConfigureMtu));
    assert Next(s2, Section(ConfigureMtu)) == Preparing(SECURED, NO_HANDLES, 15001);
  }

  /** Its service and the three characteristics are found. */
  lemma ServiceIsFound()
    ensures Reachable(Preparing(SECURED.(serviceFound := true), Handles(1, 9, 2, 3, 4, 0, 0, 0, 0), 15001))
  {
    hide Reachable;
    LinkIsSecured();
    var s0 := Preparing(SECURED, NO_HANDLES, 15001);
    Onward(s0, Section(StartDiscovery(true, 1)));
    var s1 := Preparing(SECURED.(discovering := true), NO_HANDLES, 15001);
    assert Next(s0, Section(StartDiscovery(true, 1))) == s1;
    Onward(s1, Section(SeeService(1, 9)));
    var found := NO_HANDLES.(serviceStart := 1, serviceEnd := 9);
    var s2 := Preparing(SECURED.(discovering := true, serviceFound := true), found, 15001);
    assert Next(s1, Section(SeeService(1, 9))) == s2;
    Onward(s2, Section(CompleteSearch));
    var s3 := Preparing(SECURED.(serviceFound := true), found, 15001);
    assert Next(s2, Section(CompleteSearch)) == s3;
    var last := Section(FindCharacteristics(1, 1, 9, 2, 3, 4));
    Onward(s3, last);
    assert Next(s3, last) == Preparing(SECURED.(serviceFound := true), Handles(1, 9, 2, 3, 4, 0, 0, 0, 0), 15001);
  }

  /** A source is registered for, its descriptor found, and the subscription written. */
  lemma DataIsSubscribed()
    ensures Reachable(Preparing(SECURED.(serviceFound := true, dataSubscribed := true), Handles(1, 9, 2, 3, 4, 5, 0, 0, 1), 10001))
  {
    hide Reachable;
    ServiceIsFound();
    var link := SECURED.(serviceFound := true);
    var s0 := Preparing(link, Handles(1, 9, 2, 3, 4, 0, 0, 0, 0), 15001);
    Onward(s0, Section(BeginSubscription(true, 1)));
    var s1 := Preparing(link, Handles(1, 9, 2, 3, 4, 0, 0, 3, 1), 10001);
    assert Next(s0, Section(BeginSubscription(true, 1))) == s1;
    Onward(s1, Section(Register(3)));
    var s2 := Preparing(link, Handles(1, 9, 2, 3, 4, 0, 0, 0, 1), 10001);
    assert Next(s1, Section(Register(3))) == s2;
    Onward(s2, Section(SaveCccd(true, 3, 5)));
    var s3 := Preparing(link, Handles(1, 9, 2, 3, 4, 5, 0, 0, 1), 10001);
    assert Next(s2, Section(SaveCccd(true, 3, 5))) == s3;
    Onward(s3, Section(SubscribeData));
    assert Next(s3, Section(SubscribeData))
        == Preparing(link.(dataSubscribed := true), Handles(1, 9, 2, 3, 4, 5, 0, 0, 1), 10001);
  }

  ghost predicate ReadyToRequest(s: System) {
    && Reachable(s) && s.callback == Idle && s.queue == [] && s.trace == [] && s.worker == START.worker
    && s.client.generation == 1 && s.client.link.ready && s.client.link.connected && !s.client.link.closing
    && s.client.handles.controlPoint == 4
  }

  lemma SessionIsReady() returns (t: System)
    ensures ReadyToRequest(t)
  {
    hide Reachable;
    DataIsSubscribed();
    var link := SECURED.(serviceFound := true, dataSubscribed := true);
    var s0 := Preparing(link, Handles(1, 9, 2, 3, 4, 5, 0, 0, 1), 10001);
    Onward(s0, Section(BeginSubscription(false, 1)));
    var s1 := Preparing(link, Handles(1, 9, 2, 3, 4, 5, 0, 2, 1), 10001);
    assert Next(s0, Section(BeginSubscription(false, 1))) == s1;
    Onward(s1, Section(Register(2)));
    assert Next(s1, Section(Register(2))) == s0;
    Onward(s0, Section(SaveCccd(false, 2, 6)));
    var s3 := Preparing(link, Handles(1, 9, 2, 3, 4, 5, 6, 0, 1), 10001);
    assert Next(s0, Section(SaveCccd(false, 2, 6))) == s3;
    Onward(s3, Section(SubscribeNotifications));
    t := Next(s3, Section(SubscribeNotifications));
  }

  const EVENT: Item := Item(Event, 7, 1, 1)

  /** An event is received, queued and taken. */
  lemma EventIsTaken() returns (t: System)
    ensures Reachable(t) && t.callback == Idle && t.queue == [] && t.trace == []
    ensures t.client.generation == 1 && t.client.link.ready && t.client.link.connected && !t.client.link.closing
    ensures t.client.handles.controlPoint == 4 && t.worker == Worker(Taken(EVENT), 1, [], false, NO_EVENT, 0)
  {
    hide Reachable;
    var s := SessionIsReady();
    Onward(s, CheckGeneration);
    var s1 := Next(s, CheckGeneration);
    assert s1 == s.(worker := Worker(Waiting, 1, [], false, NO_EVENT, 0));
    Onward(s1, Receive(Event, 7));
    var s2 := Next(s1, Receive(Event, 7));
    assert s2 == s1.(callback := Receiving(Event, 7, 1));
    Onward(s2, Tag);
    var s3 := Next(s2, Tag);
    assert s3 == s1.(callback := Tagged(EVENT));
    Onward(s3, Offer);
    var s4 := Next(s3, Offer);
    assert s4 == s1.(queue := [EVENT]);
    Onward(s4, Take);
    t := Next(s4, Take);
  }

  /** Its request is validated. */
  lemma RequestIsValidated() returns (t: System)
    ensures Reachable(t) && t.callback == Idle && t.queue == [] && t.trace == []
    ensures t.client.generation == 1 && t.client.link.connected && t.worker == Worker(Writing, 1, [], true, EVENT, 1)
  {
    hide Reachable;
    var s := EventIsTaken();
    Onward(s, CompareGeneration);
    var s1 := Next(s, CompareGeneration);
    assert s1 == s.(worker := s.worker.(point := Accepted(EVENT)));
    Onward(s1, Process(Queued));
    var s2 := Next(s1, Process(Queued));
    assert s2 == s.(worker := Worker(Serving, 1, [EVENT], false, NO_EVENT, 0));
    Onward(s2, Start(true));
    t := Next(s2, Start(true));
  }

  /** The peer reconnects before the write: the request of generation 1 is written under generation 3. */
  lemma RequestCanBeWrittenLate()
    ensures exists steps :: Run(steps).trace == [Issued(EVENT, 1, 3)]
  {
    hide Reachable, Run;
    var s := RequestIsValidated();
    Onward(s, Advance(Disconnect));
    var s1 := Next(s, Advance(Disconnect));
    assert s1.callback == OwesReset(2) && s1.client.generation == 2 && !s1.client.link.connected;
    assert s1.worker == s.worker && s1.trace == [];
    Onward(s1, OfferReset);
    var s2 := Next(s1, OfferReset);
    assert s2.callback == Idle && s2.client == s1.client && s2.worker == s.worker && s2.trace == [];
    Onward(s2, Advance(Connect(1, 2)));
    var s3 := Next(s2, Advance(Connect(1, 2)));
    assert s3.client.generation == 3 && s3.worker == s.worker && s3.trace == [];
    Onward(s3, Write(true));
    RunTo(Next(s3, Write(true)));
  }

  lemma RunTo(s: System)
    requires Reachable(s)
    ensures exists steps :: Run(steps) == s
  {
  }
}
