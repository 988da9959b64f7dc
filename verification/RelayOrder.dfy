/** The order in which the relay sends: items leave the queue in the order in which they were accepted. */
module RelayOrder {

  import opened MqttRelay
  import opened RelayItems
  import opened Wrappers

  /** The accepted items, the taken ones, and of every accepted item that left the queue whether it was taken. */
  datatype Ledger = Ledger(accepted: seq<nat>, taken: seq<nat>, kept: seq<bool>)

  const BLANK: Ledger := Ledger([], [], [])

  /** An observer's second critical section that finds everything in place queues its item. */
  predicate Accepts(s: System, step: Step) {
    && step.EndObserving? && step.item in s.items.hands && step.publish && s.flags.hasQueue
    && s.flags.accepting && s.flags.wifi && s.flags.connected && |s.items.queue| < 8
  }

  /** A draining worker that is connected takes an item. */
  predicate Takes(s: System, step: Step) {
    step.Take? && s.worker.point == Draining && s.flags.connected && s.flags.hasQueue && s.items.queue != []
  }

  /** A lost connection and a teardown drop what is queued. */
  predicate Drops(s: System, step: Step) {
    || (step.Handle? && s.event == Some(Disconnected))
    || (step.Proceed? && s.life != [] && (s.life[0] == DropAll || s.life[0] == ClearClient || s.life[0] == Reset))
  }

  ghost function Repeated(value: bool, n: nat): (s: seq<bool>)
    ensures |s| == n
  {
    seq(n, _ => value)
  }

  /** What an observer of the lists writes down; the taken item is the one in the worker's hand afterwards. */
  ghost function Entered(l: Ledger, s: System, step: Step): Ledger {
    if Accepts(s, step) then l.(accepted := l.accepted + [step.item])
    else if Takes(s, step) then l.(taken := l.taken + Next(s, step).items.held, kept := l.kept + [true])
    else if Drops(s, step) then l.(kept := l.kept + Repeated(false, |s.items.queue|))
    else l
  }

  ghost function Journal(steps: seq<Step>): Ledger
    decreases |steps|
  {
    if steps == [] then BLANK
    else Entered(Journal(steps[..|steps| - 1]), Run(steps[..|steps| - 1]), steps[|steps| - 1])
  }

  /** The items marked true, in order. */
  ghost function Marked(items: seq<nat>, marks: seq<bool>): seq<nat>
    requires |items| == |marks|
    decreases |items|
  {
    if items == [] then []
    else
      var n := |items| - 1;
      Marked(items[..n], marks[..n]) + (if marks[n] then [items[n]] else [])
  }

  /** The queue holds the accepted items that did not leave it, and those taken come in the order of the accepted ones. */
  ghost predicate InOrder(l: Ledger, queue: seq<nat>) {
    && |l.kept| <= |l.accepted| && queue == l.accepted[|l.kept|..]
    && l.taken == Marked(l.accepted[..|l.kept|], l.kept)
  }

  lemma {:induction false} MarkedFalse(items: seq<nat>, marks: seq<bool>, more: seq<nat>)
    requires |items| == |marks|
    ensures Marked(items + more, marks + Repeated(false, |more|)) == Marked(items, marks)
    decreases |more|
  {
    if more == [] {
      assert items + more == items && marks + Repeated(false, 0) == marks;
    } else {
      var n := |more| - 1;
      assert (items + more)[..|items| + n] == items + more[..n];
      assert (marks + Repeated(false, |more|))[..|items| + n] == marks + Repeated(false, n);
      MarkedFalse(items, marks, more[..n]);
    }
  }

  lemma AcceptingKeepsOrder(l: Ledger, queue: seq<nat>, item: nat)
    requires InOrder(l, queue)
    ensures InOrder(l.(accepted := l.accepted + [item]), queue + [item])
  {
    assert (l.accepted + [item])[..|l.kept|] == l.accepted[..|l.kept|];
  }

  lemma TakingKeepsOrder(l: Ledger, queue: seq<nat>)
    requires InOrder(l, queue) && queue != []
    ensures InOrder(l.(taken := l.taken + [queue[0]], kept := l.kept + [true]), queue[1..])
  {
    var gone := l.accepted[..|l.kept| + 1];
    assert gone[..|l.kept|] == l.accepted[..|l.kept|] && (l.kept + [true])[..|l.kept|] == l.kept;
    assert Marked(gone, l.kept + [true]) == Marked(l.accepted[..|l.kept|], l.kept) + [queue[0]];
  }

  lemma DroppingKeepsOrder(l: Ledger, queue: seq<nat>)
    requires InOrder(l, queue)
    ensures InOrder(l.(kept := l.kept + Repeated(false, |queue|)), [])
  {
    MarkedFalse(l.accepted[..|l.kept|], l.kept, queue);
    assert l.accepted[..|l.kept|] + queue == l.accepted;
    assert l.accepted[..|l.accepted|] == l.accepted;
  }

  /** What one step does to the queue, and what the worker then holds. */
  lemma QueueAfter(s: System, step: Step)
    ensures var t := Next(s, step);
            t.items.queue == (if Accepts(s, step) then s.items.queue + [step.item]
                              else if Takes(s, step) then s.items.queue[1..]
                              else if Drops(s, step) then []
                              else s.items.queue)
    ensures Takes(s, step) ==> Next(s, step).items.held == [s.items.queue[0]]
  {
    hide PendingItems, Program;
    match step
    case Proceed =>
      if s.life != [] {
        StatementKeepsQueue(s);
      }
    case Handle =>
      if s.event.Some? {
        HandlingKeepsQueue(s);
      }
    case _ =>
  }

  lemma StatementKeepsQueue(s: System)
    requires s.life != []
    ensures Proceeded(s).items.queue == if Drops(s, Proceed) then [] else s.items.queue
  {
    hide PendingItems;
  }

  lemma HandlingKeepsQueue(s: System)
    requires s.event.Some?
    ensures Next(s, Handle).items.queue == if s.event == Some(Disconnected) then [] else s.items.queue
  {
    hide PendingItems;
  }

  /**
   * In every interleaving: the items the worker took are the accepted ones in
   * the order of acceptance, without those that were dropped from the queue, and
   * what is queued are the last accepted ones.
   */
  lemma {:induction false} TakenInOrder(steps: seq<Step>)
    ensures InOrder(Journal(steps), Run(steps).items.queue)
    decreases |steps|
  {
    hide Next, InOrder, Takes, Drops;
    if steps == [] {
      assert InOrder(BLANK, []) by {
        BlankIsInOrder();
      }
    } else {
      var before, step := steps[..|steps| - 1], steps[|steps| - 1];
      var s, l := Run(before), Journal(before);
      TakenInOrder(before);
      QueueAfter(s, step);
      if Accepts(s, step) {
        AcceptingKeepsOrder(l, s.items.queue, step.item);
      } else if Takes(s, step) {
        QueueIsThere(s, step);
        TakingKeepsOrder(l, s.items.queue);
      } else if Drops(s, step) {
        DroppingKeepsOrder(l, s.items.queue);
      }
    }
  }

  lemma BlankIsInOrder()
    ensures InOrder(BLANK, [])
  {
  }

  lemma QueueIsThere(s: System, step: Step)
    requires Takes(s, step)
    ensures s.items.queue != []
  {
  }

  // ---------- After sending ----------

  lemma {:induction false} PlacesOf(pending: seq<Pending>, item: nat)
    ensures PendingItems(pending)[item] > 0 <==> exists p <- pending :: p.item == item
  {
    if pending != [] {
      PlacesOf(pending[1..], item);
      assert forall p <- pending :: p == pending[0] || p in pending[1..];
    }
  }

  lemma HeldIsElsewhereNot(steps: seq<Step>, item: nat)
    requires item in Run(steps).items.held
    ensures PendingItems(Run(steps).items.pending)[item] == 0 && Run(steps).items.freed[item] == 0
  {
    ItemsAreConserved(steps, item);
    hide Run, PendingItems;
    assert multiset(Run(steps).items.held)[item] > 0;
  }

  /**
   * In every interleaving, an item that was sent waits for its acknowledgement
   * if and only if it got a message id and the connection stands; else it is
   * freed.
   */
  lemma SentItemWaitsIff(steps: seq<Step>)
    requires Run(steps).worker.point.Sent? && Run(steps).items.held != []
    ensures var s, t := Run(steps), Next(Run(steps), Settle);
            var item, msgId := s.items.held[0], s.worker.point.msgId;
            && t.items.held == []
            && ((exists p <- t.items.pending :: p.item == item) <==> msgId > 0 && s.flags.connected)
            && (t.items.freed[item] == 1 <==> !(msgId > 0 && s.flags.connected))
            && forall p: Pending :: p.item != item ==> (p in t.items.pending <==> p in s.items.pending)
  {
    var s := Run(steps);
    HeldIsElsewhereNot(steps, s.items.held[0]);
    PlacesOf(s.items.pending, s.items.held[0]);
    hide Run, PendingItems;
  }

  /** An acknowledgement is counted if and only if an item waits for it, and then frees one that does. */
  lemma AcknowledgementIsCountedIff(s: System, msgId: int)
    requires s.event == Some(Published(msgId))
    ensures var t := Next(s, Handle);
            && (t.items.acked == s.items.acked + 1 <==> exists p <- s.items.pending :: p.msgId == msgId)
            && (t.items.acked == s.items.acked + 1 ==>
                  exists p <- s.items.pending :: p.msgId == msgId && t.items.freed == s.items.freed + multiset{p.item})
            && |t.items.pending| + t.items.acked == |s.items.pending| + s.items.acked
  {
    var k := PendingPosition(s.items.pending, msgId);
    if k < |s.items.pending| {
      assert s.items.pending[k] in s.items.pending;
    }
  }
}
