/** What the client delivers while its session lasts: every queued fragment and event, once and in order. */
module ClientDelivery {

  // The fence of the client throws stale work away. Here is the other side of
  // it: as long as the generation does not change, the worker loses nothing that
  // was queued, however often it goes round its loop.

  import opened ClientSession
  import opened ClientSystem

  /** The items of one kind that belong to a generation. */
  ghost function Select(items: seq<Item>, work: Work, generation: nat): seq<Item> {
    if items == [] then []
    else
      (if items[0].work == work && items[0].generation == generation then [items[0]] else [])
      + Select(items[1..], work, generation)
  }

  lemma {:induction false} SelectAppend(a: seq<Item>, b: seq<Item>, work: Work, generation: nat)
    ensures Select(a + b, work, generation) == Select(a, work, generation) + Select(b, work, generation)
    decreases |a|
  {
    if a == [] {
      assert a + b == b;
    } else {
      assert (a + b)[1..] == a[1..] + b;
      SelectAppend(a[1..], b, work, generation);
    }
  }

  lemma SelectOne(item: Item, work: Work, generation: nat)
    ensures Select([item], work, generation) == if item.work == work && item.generation == generation then [item] else []
  {
  }

  function InHand(point: Point): seq<Item> {
    if point.Taken? || point.Accepted? then [point.item] else []
  }

  /** What the worker has still to process, in order. */
  ghost function Ahead(s: System, work: Work): seq<Item> {
    Select(InHand(s.worker.point) + s.queue, work, s.client.generation)
  }

  /** The item a step puts into the queue, if there is room for it. */
  function Offered(s: System, step: Step, work: Work): seq<Item> {
    if step.Offer? && s.callback.Tagged? && |s.queue| < 24 && s.callback.item.work == work
    then [s.callback.item] else []
  }

  /** The item a step processes. */
  function ProcessedBy(s: System, step: Step, work: Work): seq<Item> {
    if step.Process? && s.worker.point.Accepted? && s.worker.point.item.work == work
       && (work == Work.Event ==> Disposes(s.worker.pending, step.disposal))
    then [s.worker.point.item] else []
  }

  /** The worker has caught up with the generation. */
  predicate InSession(s: System) {
    s.worker.generation == s.client.generation
  }

  /** A step that neither changes the generation nor processes a reset. */
  predicate Continues(s: System, step: Step) {
    && !ChangesGeneration(s, step)
    && !(step.Process? && s.worker.point.Accepted? && s.worker.point.item.work == Work.Reset)
  }

  // ---------- One step ----------

  lemma GenerationStays(s: System, step: Step)
    requires !ChangesGeneration(s, step)
    ensures Next(s, step).client.generation == s.client.generation
  {
    hide After, AdvancesGeneration;
    if step.Section? || step.Advance? {
      SectionAdvancesGeneration(s.client, step.section);
    }
  }

  lemma SessionGoesOn(s: System, step: Step)
    requires InSession(s) && Continues(s, step)
    ensures InSession(Next(s, step))
  {
    GenerationStays(s, step);
    hide After, AdvancesGeneration;
  }

  lemma QueueStep(s: System, step: Step)
    requires Continues(s, step)
    ensures !step.OfferReset? && !step.Offer? && !step.Take? ==> Next(s, step).queue == s.queue
    ensures !step.Take? && !step.CompareGeneration? && !step.Process? ==> InHand(Next(s, step).worker.point) == InHand(s.worker.point)
  {
    hide After, AdvancesGeneration, RequestValid;
  }

  /** Between the queue and its processing nothing is lost and nothing overtakes. */
  lemma Passes(s: System, step: Step, work: Work)
    requires Invariant(s) && InSession(s) && Continues(s, step) && work != Work.Reset
    ensures Ahead(s, work) + Offered(s, step, work) == ProcessedBy(s, step, work) + Ahead(Next(s, step), work)
  {
    GenerationStays(s, step);
    QueueStep(s, step);
    var t := Next(s, step);
    var hand := InHand(s.worker.point);
    hide Select, Invariant, ChangesGeneration;
    match step
    case Offer =>
      assert t.queue == s.queue || t.queue == s.queue + [s.callback.item];
      if s.callback.Tagged? {
        AppendPasses(s, work);
      }
    case OfferReset => ResetPasses(s, work);
    case Take => TakingPasses(s, work);
    case CompareGeneration => ComparingPasses(s, work);
    case Process(disposal) => ProcessingPasses(s, disposal, work);
    case _ =>
      assert InHand(t.worker.point) + t.queue == hand + s.queue;
  }

  lemma AppendPasses(s: System, work: Work)
    requires Invariant(s) && s.callback.Tagged?
    ensures Ahead(s, work) + Offered(s, Offer, work) == Ahead(Next(s, Offer), work)
  {
    var item, hand, g := s.callback.item, InHand(s.worker.point), s.client.generation;
    SelectAppend(hand + s.queue, [item], work, g);
    SelectOne(item, work, g);
    assert hand + (s.queue + [item]) == hand + s.queue + [item];
    hide Select;
  }

  lemma ResetPasses(s: System, work: Work)
    requires work != Work.Reset
    ensures Ahead(Next(s, OfferReset), work) == Ahead(s, work)
  {
    if s.callback.OwesReset? {
      var hand, reset := InHand(s.worker.point), Item(Work.Reset, 0, s.callback.generation, s.callback.generation);
      SelectAppend(hand + s.queue, [reset], work, s.client.generation);
      SelectOne(reset, work, s.client.generation);
      assert hand + (s.queue + [reset]) == hand + s.queue + [reset];
    }
    hide Select;
  }

  lemma TakingPasses(s: System, work: Work)
    ensures Ahead(Next(s, Take), work) == Ahead(s, work)
  {
    hide Select;
    if s.worker.point == Waiting && s.queue != [] {
      assert InHand(s.worker.point) + s.queue == [s.queue[0]] + s.queue[1..];
    }
  }

  /** An item of the current generation is accepted; any other is none of those selected. */
  lemma ComparingPasses(s: System, work: Work)
    ensures Ahead(Next(s, CompareGeneration), work) == Ahead(s, work)
  {
    if s.worker.point.Taken? && s.worker.point.item.generation != s.client.generation {
      SelectAppend([s.worker.point.item], s.queue, work, s.client.generation);
      SelectOne(s.worker.point.item, work, s.client.generation);
      assert [] + s.queue == s.queue;
    }
    hide Select;
  }

  lemma AcceptedIsCurrent(s: System)
    requires Invariant(s) && InSession(s) && s.worker.point.Accepted?
    ensures s.worker.point.item.generation == s.client.generation
  {
  }

  lemma ProcessingPasses(s: System, disposal: Disposal, work: Work)
    requires Invariant(s) && InSession(s) && Continues(s, Process(disposal)) && work != Work.Reset
    ensures Ahead(s, work) == ProcessedBy(s, Process(disposal), work) + Ahead(Next(s, Process(disposal)), work)
  {
    hide Invariant, Select, Disposes;
    if s.worker.point.Accepted? {
      var item := s.worker.point.item;
      AcceptedIsCurrent(s);
      SelectAppend([item], s.queue, work, s.client.generation);
      SelectOne(item, work, s.client.generation);
      assert [] + s.queue == s.queue;
    }
  }

  // ---------- The active request ----------

  /** A request is active that belongs to the current generation. */
  predicate Requesting(s: System) {
    InSession(s) && s.worker.active
  }

  /** The worker gives the request up: it is finished, or the session is not valid any more when it is repeated. */
  predicate EndsRequest(s: System, step: Step) {
    s.worker.point == Serving
    && (step.Finish? || (step.Reissue? && !RequestValid(s.client, s.worker.generation, step.registered)))
  }

  /** Steps that leave the session and its request alone. */
  ghost predicate Undisturbed(s: System, steps: seq<Step>)
    decreases |steps|
  {
    steps != [] ==>
      Continues(s, steps[0]) && !EndsRequest(s, steps[0]) && Undisturbed(Next(s, steps[0]), steps[1..])
  }

  /** The fragments given to parsers so far. */
  ghost function FedSoFar(trace: seq<Trace>): seq<Item> {
    if trace == [] then []
    else
      var last := trace[|trace| - 1];
      FedSoFar(trace[..|trace| - 1]) + (if last.Fed? then [last.fragment] else [])
  }

  ghost function AllOffered(s: System, steps: seq<Step>, work: Work): seq<Item>
    decreases |steps|
  {
    if steps == [] then [] else Offered(s, steps[0], work) + AllOffered(Next(s, steps[0]), steps[1..], work)
  }

  ghost predicate Removes(s: System, step: Step) {
    step.Process? && step.disposal.Removed? && s.worker.point.Accepted? && s.worker.point.item.work == Work.Event
  }

  ghost predicate NoRemoval(s: System, steps: seq<Step>)
    decreases |steps|
  {
    steps != [] ==> !Removes(s, steps[0]) && NoRemoval(Next(s, steps[0]), steps[1..])
  }

  lemma RequestGoesOn(s: System, step: Step)
    requires Invariant(s) && Requesting(s) && Continues(s, step) && !EndsRequest(s, step)
    ensures var t := Next(s, step);
            && Requesting(t) && t.worker.event == s.worker.event && t.worker.issuedUnder == s.worker.issuedUnder
            && (!Removes(s, step) ==> s.worker.pending <= t.worker.pending)
  {
    GenerationStays(s, step);
    SessionGoesOn(s, step);
    hide After, AdvancesGeneration, Invariant, ChangesGeneration;
    assert s.worker.issuedUnder == s.client.generation by {
      IssuedUnderCurrent(s);
    }
  }

  lemma IssuedUnderCurrent(s: System)
    requires Invariant(s) && Requesting(s)
    ensures s.worker.issuedUnder == s.client.generation
  {
  }

  lemma FedAppend(trace: seq<Trace>, entry: Trace)
    ensures FedSoFar(trace + [entry]) == FedSoFar(trace) + (if entry.Fed? then [entry.fragment] else [])
  {
    assert (trace + [entry])[..|trace + [entry]| - 1] == trace;
  }

  /** A fragment that is processed is given to the parser of the active request. */
  lemma FragmentIsFed(s: System, step: Step)
    requires s.worker.active
    ensures FedSoFar(Next(s, step).trace) == FedSoFar(s.trace) + ProcessedBy(s, step, Fragment)
  {
    hide After, AdvancesGeneration, RequestValid, FedSoFar, Disposes, Disposed, ResetWorker, Enqueued;
    match step
    case Process(disposal) =>
      if s.worker.point.Accepted? {
        FedAppend(s.trace, Fed(s.worker.point.item, s.worker.issuedUnder));
      }
    case Write(_) => FedAppend(s.trace, Issued(s.worker.event, s.worker.issuedUnder, s.client.generation));
    case _ => assert Next(s, step).trace == s.trace;
  }

  /**
   * From any state with an active request of the current generation, and
   * through every interleaving that neither changes the generation nor ends the
   * request: the request and the pending events stay, and the fragments that
   * were waiting or are queued are fed to it once and in order.
   */
  lemma {:induction false} RequestIsServed(s: System, steps: seq<Step>)
    requires Invariant(s) && Requesting(s) && Undisturbed(s, steps)
    ensures var t := Follow(s, steps);
            && Requesting(t) && t.worker.event == s.worker.event && t.worker.issuedUnder == s.worker.issuedUnder
            && FedSoFar(t.trace) + Ahead(t, Fragment)
               == FedSoFar(s.trace) + Ahead(s, Fragment) + AllOffered(s, steps, Fragment)
    ensures NoRemoval(s, steps) ==> s.worker.pending <= Follow(s, steps).worker.pending
    decreases |steps|
  {
    hide Next, Invariant, Ahead, FedSoFar, Requesting, Continues, EndsRequest, Removes, Offered, ProcessedBy;
    if steps != [] {
      var step, u := steps[0], Next(s, steps[0]);
      StepKeepsInvariant(s, step);
      RequestGoesOn(s, step);
      Active(s);
      FragmentIsFed(s, step);
      Passes(s, step, Fragment);
      RequestIsServed(u, steps[1..]);
      var t := Follow(u, steps[1..]);
      Chain(FedSoFar(s.trace), ProcessedBy(s, step, Fragment), Ahead(u, Fragment), Ahead(s, Fragment),
            Offered(s, step, Fragment), AllOffered(u, steps[1..], Fragment));
    }
  }

  lemma Active(s: System)
    requires Requesting(s)
    ensures s.worker.active && InSession(s)
  {
  }

  lemma Chain(fed: seq<Item>, processed: seq<Item>, ahead': seq<Item>, ahead: seq<Item>, offered: seq<Item>, more: seq<Item>)
    requires ahead + offered == processed + ahead'
    ensures fed + processed + ahead' + more == fed + ahead + (offered + more)
  {
    assert fed + processed + ahead' + more == fed + (processed + ahead') + more;
  }

  // ---------- The pending events ----------

  /** The event whose request a step begins. */
  ghost function BegunBy(s: System, step: Step): seq<Item> {
    if step.Start? && s.worker.point == Serving && !s.worker.active && s.worker.pending != []
    then [Next(s, step).worker.event] else []
  }

  ghost function AllBegun(s: System, steps: seq<Step>): seq<Item>
    decreases |steps|
  {
    if steps == [] then [] else BegunBy(s, steps[0]) + AllBegun(Next(s, steps[0]), steps[1..])
  }

  /** Events are neither suppressed as duplicates, nor removed, nor refused by a full queue of requests. */
  predicate QueuesEvents(s: System, step: Step) {
    step.Process? && s.worker.point.Accepted? && s.worker.point.item.work == Work.Event ==> step.disposal == Queued
  }

  ghost predicate Orderly(s: System, steps: seq<Step>)
    decreases |steps|
  {
    steps != [] ==>
      Continues(s, steps[0]) && QueuesEvents(s, steps[0]) && Orderly(Next(s, steps[0]), steps[1..])
  }

  lemma EventPasses(s: System, step: Step)
    requires InSession(s) && Continues(s, step) && QueuesEvents(s, step)
    ensures s.worker.pending + ProcessedBy(s, step, Event) == BegunBy(s, step) + Next(s, step).worker.pending
  {
    hide After, AdvancesGeneration, RequestValid, ChangesGeneration;
    if step.Start? && s.worker.pending != [] {
      assert s.worker.pending == [s.worker.pending[0]] + s.worker.pending[1..];
    }
  }

  /**
   * While the generation stays and every event is queued, requests begin in
   * the order in which their events arrived, each once: begun, pending and still
   * queued ones are the ones there were and those offered since.
   */
  lemma {:induction false} EventsBeginInOrder(s: System, steps: seq<Step>)
    requires Invariant(s) && InSession(s) && Orderly(s, steps)
    ensures var t := Follow(s, steps);
            && InSession(t)
            && AllBegun(s, steps) + t.worker.pending + Ahead(t, Event)
               == s.worker.pending + Ahead(s, Event) + AllOffered(s, steps, Event)
    decreases |steps|
  {
    hide Next, Invariant, Ahead, InSession, Continues, QueuesEvents, Offered, ProcessedBy, BegunBy;
    if steps != [] {
      var step, u := steps[0], Next(s, steps[0]);
      StepKeepsInvariant(s, step);
      SessionGoesOn(s, step);
      EventPasses(s, step);
      Passes(s, step, Event);
      EventsBeginInOrder(u, steps[1..]);
      var t := Follow(u, steps[1..]);
      Chains(s.worker.pending, ProcessedBy(s, step, Event), BegunBy(s, step), u.worker.pending,
             Ahead(s, Event), Offered(s, step, Event), Ahead(u, Event), AllOffered(u, steps[1..], Event));
      Rest(BegunBy(s, step), AllBegun(u, steps[1..]), t.worker.pending, Ahead(t, Event));
    }
  }

  lemma Chains(pending: seq<Item>, processed: seq<Item>, begun: seq<Item>, pending': seq<Item>,
               ahead: seq<Item>, offered: seq<Item>, ahead': seq<Item>, more: seq<Item>)
    requires pending + processed == begun + pending' && ahead + offered == processed + ahead'
    ensures begun + (pending' + ahead' + more) == pending + ahead + (offered + more)
  {
    calc {
      begun + (pending' + ahead' + more);
      (begun + pending') + (ahead' + more);
      (pending + processed) + (ahead' + more);
      pending + (processed + ahead') + more;
      pending + (ahead + offered) + more;
    }
  }

  lemma Rest(begun: seq<Item>, all: seq<Item>, pending: seq<Item>, ahead: seq<Item>)
    ensures begun + (all + pending + ahead) == begun + all + pending + ahead
  {
  }

  /** When a request is finished, the request for the oldest pending event can be validated. */
  lemma NextBegins(s: System)
    requires s.worker.point == Serving && s.worker.pending != [] && RequestValid(s.client, s.worker.generation, true)
    ensures var t := Next(Next(s, Finish), Start(true));
            && t.worker.point == Writing && t.worker.active
            && [t.worker.event] + t.worker.pending == s.worker.pending
  {
  }

  /**
   * What a callback receives is queued, under the generation it arrived in, if
   * and only if the link is open and fewer than 24 items wait.
   */
  lemma ReceivedIsQueuedIff(s: System, work: Work, content: nat)
    requires s.callback == Idle && work != Work.Reset
    ensures var g, t := s.client.generation, Next(Next(Next(s, Receive(work, content)), Tag), Offer);
            t.queue == (if s.client.link.connected && !s.client.link.closing && |s.queue| < 24
                        then s.queue + [Item(work, content, g, g)] else s.queue)
            && t.callback == Idle
  {
    hide After, AdvancesGeneration, Processed, Validated, Advanced;
  }
}
