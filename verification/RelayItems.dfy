/** Where every notification item of the relay is. */
module RelayItems {

  // An item is being built by an observer, queued, in the worker's hand, waiting
  // for its acknowledgement, or freed.

  const QUEUE_CAPACITY: nat := 8

  datatype Pending = Pending(item: nat, msgId: int)

  /** Items are numbered in the order they are built. */
  datatype Items = Items(
    hands: multiset<nat>,
    queue: seq<nat>,
    held: seq<nat>,
    pending: seq<Pending>,
    freed: multiset<nat>,
    built: nat,
    accepted: nat,
    acked: nat,
    lost: nat)

  const NO_ITEMS: Items := Items(multiset{}, [], [], [], multiset{}, 0, 0, 0, 0)

  // ---------- What the critical sections do to items ----------

  function Built(s: Items): Items {
    s.(hands := s.hands + multiset{s.built}, built := s.built + 1)
  }

  /** The observer gives its item up. */
  function GivenUp(s: Items, item: nat): Items {
    s.(hands := s.hands - multiset{item}, freed := s.freed + multiset{item})
  }

  /** The observer's item is queued if there is room, else freed. */
  function Admitted(s: Items, item: nat): Items {
    if |s.queue| >= QUEUE_CAPACITY then GivenUp(s, item)
    else s.(hands := s.hands - multiset{item}, queue := s.queue + [item], accepted := s.accepted + 1)
  }

  function Taken(s: Items): Items
    requires s.queue != []
  {
    s.(queue := s.queue[1..], held := [s.queue[0]])
  }

  /** The held item is tracked until it is acknowledged, or freed if it was not sent. */
  function Settled(s: Items, msgId: int, connected: bool): Items
    requires s.held != []
  {
    if msgId <= 0 || !connected then s.(held := [], freed := s.freed + multiset{s.held[0]}, lost := s.lost + 1)
    else s.(held := [], pending := [Pending(s.held[0], msgId)] + s.pending)
  }

  /** The position of the first pending item with the message id, or the number of pending items. */
  function PendingPosition(pending: seq<Pending>, msgId: int): (k: nat)
    ensures k <= |pending|
    ensures k < |pending| ==> pending[k].msgId == msgId
    ensures forall j :: 0 <= j < k ==> pending[j].msgId != msgId
  {
    if pending == [] || pending[0].msgId == msgId then 0 else 1 + PendingPosition(pending[1..], msgId)
  }

  function Acknowledged(s: Items, msgId: int): Items {
    var k := PendingPosition(s.pending, msgId);
    if k == |s.pending| then s
    else
      s.(pending := s.pending[..k] + s.pending[k + 1..], freed := s.freed + multiset{s.pending[k].item}, acked := s.acked + 1)
  }

  function PendingItems(pending: seq<Pending>): multiset<nat> {
    if pending == [] then multiset{} else multiset{pending[0].item} + PendingItems(pending[1..])
  }

  /** A lost connection frees what is queued and what waits. */
  function AllDropped(s: Items): Items {
    s.(queue := [], pending := [], freed := s.freed + multiset(s.queue) + PendingItems(s.pending),
    lost := s.lost + |s.queue| + |s.pending|)
  }

  /** Teardown clears the counters with everything else. */
  function Forgotten(s: Items): Items {
    AllDropped(s).(accepted := 0, acked := 0, lost := 0)
  }

  // ---------- Conservation ----------

  /** The items built so far, each once. */
  ghost function All(n: nat): multiset<nat> {
    if n == 0 then multiset{} else All(n - 1) + multiset{n - 1}
  }

  /** Every item is in exactly one place, freed at most once, and the accepted ones are accounted for. */
  ghost predicate Conserved(s: Items) {
    && s.hands + multiset(s.queue) + multiset(s.held) + PendingItems(s.pending) + s.freed == All(s.built)
    && s.accepted == s.acked + s.lost + |s.queue| + |s.held| + |s.pending|
    && |s.queue| <= QUEUE_CAPACITY && |s.held| <= 1
  }

  lemma BuildingConserves(s: Items)
    requires Conserved(s)
    ensures Conserved(Built(s))
  {
  }

  lemma OneOf(m: multiset<nat>, item: nat)
    requires item in m
    ensures m == m - multiset{item} + multiset{item}
  {
  }

  lemma MovesOut(hands: multiset<nat>, rest: multiset<nat>, queue: seq<nat>, freed: multiset<nat>, item: nat)
    requires item in hands
    ensures hands - multiset{item} + multiset(queue + [item]) + rest + freed == hands + multiset(queue) + rest + freed
    ensures hands - multiset{item} + multiset(queue) + rest + (freed + multiset{item}) == hands + multiset(queue) + rest + freed
  {
    OneOf(hands, item);
    assert multiset(queue + [item]) == multiset(queue) + multiset{item};
  }

  lemma AdmittingConserves(s: Items, item: nat)
    requires Conserved(s) && item in s.hands
    ensures Conserved(Admitted(s, item)) && Conserved(GivenUp(s, item))
  {
    hide PendingItems, All;
    var rest := multiset(s.held) + PendingItems(s.pending);
    MovesOut(s.hands, rest, s.queue, s.freed, item);
    Regroup(s.hands, multiset(s.queue), multiset(s.held), PendingItems(s.pending), s.freed);
    var h := s.hands - multiset{item};
    Regroup(h, multiset(s.queue + [item]), multiset(s.held), PendingItems(s.pending), s.freed);
    Regroup(h, multiset(s.queue), multiset(s.held), PendingItems(s.pending), s.freed + multiset{item});
  }

  lemma Regroup(a: multiset<nat>, b: multiset<nat>, c: multiset<nat>, d: multiset<nat>, e: multiset<nat>)
    ensures a + b + c + d + e == a + b + (c + d) + e
  {
  }

  lemma TakingConserves(s: Items)
    requires Conserved(s) && s.queue != [] && s.held == []
    ensures Conserved(Taken(s))
  {
    assert s.queue == [s.queue[0]] + s.queue[1..];
  }

  lemma SettlingConserves(s: Items, msgId: int, connected: bool)
    requires Conserved(s) && s.held != []
    ensures Conserved(Settled(s, msgId, connected))
  {
    hide All;
    assert s.held == [s.held[0]];
    var item := multiset{s.held[0]};
    if msgId <= 0 || !connected {
      Regroups(s.hands + multiset(s.queue), item, PendingItems(s.pending), s.freed);
    } else {
      var p := [Pending(s.held[0], msgId)] + s.pending;
      assert p[1..] == s.pending;
      assert PendingItems(p) == item + PendingItems(s.pending);
      Regroups(s.hands + multiset(s.queue), item, PendingItems(s.pending), s.freed);
    }
  }

  /** What leaves the held item's place may join the pending or the freed ones. */
  lemma Regroups(a: multiset<nat>, item: multiset<nat>, pending: multiset<nat>, freed: multiset<nat>)
    ensures a + item + pending + freed == a + multiset{} + pending + (freed + item)
    ensures a + item + pending + freed == a + multiset{} + (item + pending) + freed
  {
  }

  lemma {:induction false} PendingItemsSplit(pending: seq<Pending>, k: nat)
    requires k < |pending|
    ensures PendingItems(pending) == PendingItems(pending[..k] + pending[k + 1..]) + multiset{pending[k].item}
  {
    var rest := pending[..k] + pending[k + 1..];
    if k == 0 {
      assert rest == pending[1..];
    } else {
      assert rest[1..] == pending[1..][..k - 1] + pending[1..][k..];
      PendingItemsSplit(pending[1..], k - 1);
    }
  }

  lemma AcknowledgingConserves(s: Items, msgId: int)
    requires Conserved(s)
    ensures Conserved(Acknowledged(s, msgId))
  {
    hide PendingItems;
    var k := PendingPosition(s.pending, msgId);
    if k < |s.pending| {
      PendingItemsSplit(s.pending, k);
    }
  }

  lemma DroppingConserves(s: Items)
    requires Conserved(s)
    ensures Conserved(AllDropped(s))
    ensures s.held == [] ==> Conserved(Forgotten(s))
  {
  }

  lemma {:induction false} AllHasEachOnce(n: nat, item: nat)
    ensures All(n)[item] == if item < n then 1 else 0
  {
    if n > 0 {
      AllHasEachOnce(n - 1, item);
    }
  }

  /** Conservation read item by item: an item built is in exactly one place, and no item is freed twice. */
  lemma EachItemInOnePlace(s: Items, item: nat)
    requires Conserved(s)
    ensures s.hands[item] + multiset(s.queue)[item] + multiset(s.held)[item] + PendingItems(s.pending)[item] + s.freed[item]
         == if item < s.built then 1 else 0
    ensures s.acked + |s.queue| + |s.held| + |s.pending| <= s.accepted
  {
    hide PendingItems;
    AllHasEachOnce(s.built, item);
    var all := s.hands + multiset(s.queue) + multiset(s.held) + PendingItems(s.pending) + s.freed;
    assert all[item] == All(s.built)[item];
  }

  // ---------- The relay's lists ----------

  class Lists {
    var queue: seq<nat>
    var held: seq<nat>
    var pending: seq<Pending>
    var accepted: nat
    var acked: nat
    ghost var hands: multiset<nat>
    ghost var freed: multiset<nat>
    ghost var built: nat
    ghost var lost: nat

    ghost function View(): Items
      reads this
    {
      Items(hands, queue, held, pending, freed, built, accepted, acked, lost)
    }

    constructor ()
      ensures View() == NO_ITEMS && Conserved(View())
    {
      queue, held, pending, accepted, acked := [], [], [], 0, 0;
      hands, freed, built, lost := multiset{}, multiset{}, 0, 0;
    }

    /** An observer finished building an item. */
    method Build()
      requires Conserved(View())
      modifies this
      ensures View() == Built(old(View())) && Conserved(View())
    {
      BuildingConserves(View());
      hands := hands + multiset{built};
      built := built + 1;
    }

    /** The observer's second critical section; `allowed` is what its checks say. */
    method Admit(item: nat, allowed: bool) returns (ok: bool)
      requires Conserved(View()) && item in hands
      modifies this
      ensures Conserved(View())
      ensures View() == if allowed then Admitted(old(View()), item) else GivenUp(old(View()), item)
      ensures ok <==> allowed && |old(queue)| < 8
    {
      hide Conserved;
      AdmittingConserves(View(), item);
      hands := hands - multiset{item};
      ok := allowed && |queue| < QUEUE_CAPACITY;
      if ok {
        queue := queue + [item];
        accepted := accepted + 1;
      } else {
        freed := freed + multiset{item};
      }
    }

    /** The worker takes the oldest item. */
    method Take() returns (ok: bool)
      requires Conserved(View()) && held == []
      modifies this
      ensures Conserved(View())
      ensures ok <==> old(queue) != []
      ensures View() == if ok then Taken(old(View())) else old(View())
    {
      if queue == [] {
        return false;
      }
      TakingConserves(View());
      held := [queue[0]];
      queue := queue[1..];
      return true;
    }

    /** The worker's critical section after sending. */
    method Settle(msgId: int, connected: bool)
      requires Conserved(View()) && held != []
      modifies this
      ensures View() == Settled(old(View()), msgId, connected) && Conserved(View())
    {
      hide Conserved;
      SettlingConserves(View(), msgId, connected);
      if msgId <= 0 || !connected {
        freed := freed + multiset{held[0]};
        lost := lost + 1;
      } else {
        pending := [Pending(held[0], msgId)] + pending;
      }
      held := [];
    }

    /** Walks the pending list for the acknowledged message. */
    method HandlePublished(msgId: int) returns (found: bool)
      requires Conserved(View())
      modifies this
      ensures View() == Acknowledged(old(View()), msgId) && Conserved(View())
      ensures found <==> exists p :: p in old(pending) && p.msgId == msgId
    {
      hide Conserved;
      AcknowledgingConserves(View(), msgId);
      var k := 0;
      while k < |pending| && pending[k].msgId != msgId
        invariant k <= |pending| && k + PendingPosition(pending[k..], msgId) == PendingPosition(pending, msgId)
        invariant forall j :: 0 <= j < k ==> pending[j].msgId != msgId
      {
        assert pending[k..][1..] == pending[k + 1..];
        k := k + 1;
      }
      if k == |pending| {
        return false;
      }
      assert pending[k] in pending;
      freed := freed + multiset{pending[k].item};
      pending := pending[..k] + pending[k + 1..];
      acked := acked + 1;
      return true;
    }

    /** Frees the queue and then the pending list. */
    method FreeAll()
      requires Conserved(View())
      modifies this
      ensures View() == AllDropped(old(View())) && Conserved(View())
    {
      hide Conserved;
      DroppingConserves(View());
      FreeQueue();
      FreePending();
    }

    method FreeQueue()
      modifies this`queue, this`freed, this`lost
      ensures queue == [] && freed == old(freed) + multiset(old(queue)) && lost == old(lost) + |old(queue)|
    {
      ghost var all := freed + multiset(queue);
      while queue != []
        invariant freed + multiset(queue) == all && lost + |queue| == old(lost) + |old(queue)|
        decreases |queue|
      {
        assert queue == [queue[0]] + queue[1..];
        freed := freed + multiset{queue[0]};
        lost := lost + 1;
        queue := queue[1..];
      }
      assert freed + multiset(queue) == freed;
    }

    method FreePending()
      modifies this`pending, this`freed, this`lost
      ensures pending == [] && freed == old(freed) + PendingItems(old(pending)) && lost == old(lost) + |old(pending)|
    {
      ghost var all := freed + PendingItems(pending);
      while pending != []
        invariant freed + PendingItems(pending) == all && lost + |pending| == old(lost) + |old(pending)|
        decreases |pending|
      {
        freed := freed + multiset{pending[0].item};
        lost := lost + 1;
        pending := pending[1..];
      }
      assert freed + PendingItems(pending) == freed;
    }
  }
}
