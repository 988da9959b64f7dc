/** The bounded queue of requests: a ring of sixteen events with cancellation in place. */
module RequestQueue {

  import opened Bytes

  const CAPACITY: nat := 16

  datatype Event = Event(eventId: Byte, flags: Byte, categoryId: Byte, categoryCount: Byte, uid: nat)

  /** The slot of the i-th event of a ring that starts at head. */
  function Slot(head: nat, i: nat): (slot: nat)
    requires head < CAPACITY && i <= CAPACITY
    ensures slot == if head + i < CAPACITY then head + i else head + i - CAPACITY
  {
    (head + i) % 16
  }

  predicate NoneOf(slots: seq<Event>, n: nat, uid: nat)
    requires n <= |slots|
  {
    forall i :: 0 <= i < n ==> slots[i].uid != uid
  }

  datatype Compaction = Compaction(slots: seq<Event>, kept: nat)

  /** The queued events, oldest first, of a ring of slots. */
  function Ring(slots: seq<Event>, head: nat, count: nat): (s: seq<Event>)
    requires |slots| == CAPACITY && head < CAPACITY && count <= CAPACITY
    ensures |s| == count
  {
    seq(count, i requires 0 <= i < count => slots[Slot(head, i)])
  }

  /** The events that do not carry uid, in order. */
  function Without(s: seq<Event>, uid: nat): (r: seq<Event>)
    ensures |r| <= |s|
    ensures forall e :: e in r <==> e in s && e.uid != uid
  {
    if s == [] then [] else (if s[0].uid == uid then [] else [s[0]]) + Without(s[1..], uid)
  }

  lemma WithoutAppend(s: seq<Event>, e: Event, uid: nat)
    ensures Without(s + [e], uid) == Without(s, uid) + (if e.uid == uid then [] else [e])
  {
    if s == [] {
      assert s + [e] == [e];
      assert Without([e][1..], uid) == [];
    } else {
      assert (s + [e])[1..] == s[1..] + [e];
      WithoutAppend(s[1..], e, uid);
    }
  }

  /**
   * What compaction from slot 0 leaves in the slots and how many events it
   * keeps, when the events before index have been read and kept were written.
   */
  function Compacted(slots: seq<Event>, head: nat, count: nat, uid: nat, index: nat, kept: nat): (r: Compaction)
    requires |slots| == CAPACITY && head < CAPACITY && kept <= index <= count <= CAPACITY
    ensures |r.slots| == CAPACITY && kept <= r.kept <= count
    decreases count - index
  {
    if index == count then Compaction(slots, kept)
    else
      var e := slots[Slot(head, index)];
      if e.uid == uid then Compacted(slots, head, count, uid, index + 1, kept)
      else Compacted(slots[kept := e], head, count, uid, index + 1, kept + 1)
  }

  /** The queue contents after cancelling uid on a ring in the given position. */
  function Canceled(slots: seq<Event>, head: nat, count: nat, uid: nat): seq<Event>
    requires |slots| == CAPACITY && head < CAPACITY && count <= CAPACITY
  {
    var r := Compacted(slots, head, count, uid, 0, 0);
    r.slots[..r.kept]
  }

  /** In every position, wrapped or not, no event with the cancelled id remains. */
  lemma {:induction false} CompactedLeavesNone(slots: seq<Event>, head: nat, count: nat, uid: nat, index: nat, kept: nat)
    requires |slots| == CAPACITY && head < CAPACITY && kept <= index <= count <= CAPACITY
    requires NoneOf(slots, kept, uid)
    ensures var r := Compacted(slots, head, count, uid, index, kept);
            NoneOf(r.slots, r.kept, uid)
    decreases count - index
  {
    if index < count {
      var e := slots[Slot(head, index)];
      if e.uid == uid {
        CompactedLeavesNone(slots, head, count, uid, index + 1, kept);
      } else {
        CompactedLeavesNone(slots[kept := e], head, count, uid, index + 1, kept + 1);
      }
    }
  }

  lemma {:induction false} CanceledLeavesNone(slots: seq<Event>, head: nat, count: nat, uid: nat)
    requires |slots| == CAPACITY && head < CAPACITY && count <= CAPACITY
    ensures forall e :: e in Canceled(slots, head, count, uid) ==> e.uid != uid
  {
    CompactedLeavesNone(slots, head, count, uid, 0, 0);
  }

  /** Compaction from this point keeps what is written so far and filters what is unread. */
  ghost predicate FiltersFrom(slots: seq<Event>, head: nat, count: nat, uid: nat, index: nat, kept: nat)
    requires |slots| == CAPACITY && head < CAPACITY && kept <= index <= count && head + count <= CAPACITY
  {
    var r := Compacted(slots, head, count, uid, index, kept);
    r.slots[..r.kept] == slots[..kept] + Without(slots[head + index..head + count], uid)
  }

  lemma FiltersFromEnd(slots: seq<Event>, head: nat, count: nat, uid: nat, kept: nat)
    requires |slots| == CAPACITY && head < CAPACITY && kept <= count && head + count <= CAPACITY
    ensures FiltersFrom(slots, head, count, uid, count, kept)
  {
    assert slots[head + count..head + count] == [];
  }

  lemma FiltersFromDropped(slots: seq<Event>, head: nat, count: nat, uid: nat, index: nat, kept: nat)
    requires |slots| == CAPACITY && head < CAPACITY && kept <= index < count && head + count <= CAPACITY
    requires slots[head + index].uid == uid
    requires FiltersFrom(slots, head, count, uid, index + 1, kept)
    ensures FiltersFrom(slots, head, count, uid, index, kept)
  {
    var rest := slots[head + index..head + count];
    assert rest[1..] == slots[head + (index + 1)..head + count];
  }

  lemma FiltersFromKept(slots: seq<Event>, head: nat, count: nat, uid: nat, index: nat, kept: nat)
    requires |slots| == CAPACITY && head < CAPACITY && kept <= index < count && head + count <= CAPACITY
    requires slots[head + index].uid != uid
    requires FiltersFrom(slots[kept := slots[head + index]], head, count, uid, index + 1, kept + 1)
    ensures FiltersFrom(slots, head, count, uid, index, kept)
  {
    var next := slots[kept := slots[head + index]];
    assert next[head + (index + 1)..head + count] == slots[head + index..head + count][1..];
    assert next[..kept + 1] == slots[..kept] + [slots[head + index]];
  }

  /** On a queue that does not wrap, compaction never overwrites a slot it has still to read. */
  lemma {:induction false} CompactedUnwrapped(slots: seq<Event>, head: nat, count: nat, uid: nat, index: nat, kept: nat)
    requires |slots| == CAPACITY && head < CAPACITY && kept <= index <= count && head + count <= CAPACITY
    ensures FiltersFrom(slots, head, count, uid, index, kept)
    decreases count - index
  {
    hide FiltersFrom;
    if index < count {
      if slots[head + index].uid == uid {
        CompactedUnwrapped(slots, head, count, uid, index + 1, kept);
        FiltersFromDropped(slots, head, count, uid, index, kept);
      } else {
        CompactedUnwrapped(slots[kept := slots[head + index]], head, count, uid, index + 1, kept + 1);
        FiltersFromKept(slots, head, count, uid, index, kept);
      }
    } else {
      FiltersFromEnd(slots, head, count, uid, kept);
    }
  }

  lemma {:induction false} CanceledUnwrapped(slots: seq<Event>, head: nat, count: nat, uid: nat)
    requires |slots| == CAPACITY && head < CAPACITY && head + count <= CAPACITY
    ensures Canceled(slots, head, count, uid) == Without(Ring(slots, head, count), uid)
  {
    CompactedUnwrapped(slots, head, count, uid, 0, 0);
    assert Ring(slots, head, count) == slots[head..head + count];
  }

  /**
   * Cancelling is the order-preserving filter of the queue, for every content
   * and every id, exactly when the queue does not wrap around the end.
   */
  lemma {:induction false} CancelFiltersIffUnwrapped(head: nat, count: nat)
    requires head < CAPACITY && count <= CAPACITY
    ensures (forall slots: seq<Event>, uid: nat | |slots| == CAPACITY ::
               Canceled(slots, head, count, uid) == Without(Ring(slots, head, count), uid))
            <==> head + count <= CAPACITY
  {
    if head + count <= CAPACITY {
      forall slots: seq<Event>, uid: nat | |slots| == CAPACITY
        ensures Canceled(slots, head, count, uid) == Without(Ring(slots, head, count), uid)
      {
        CanceledUnwrapped(slots, head, count, uid);
      }
    } else {
      var slots := seq(CAPACITY, i requires 0 <= i < CAPACITY => Event(0, 0, 0, 0, i));
      var uid := CAPACITY;
      WrappedLosesHead(slots, head, count, uid);
    }
  }

  /** Nothing is cancelled, yet a wrapped queue of distinct events changes. */
  lemma {:induction false} WrappedLosesHead(slots: seq<Event>, head: nat, count: nat, uid: nat)
    requires |slots| == CAPACITY && head < CAPACITY && count <= CAPACITY && head + count > CAPACITY
    requires forall i :: 0 <= i < CAPACITY ==> slots[i].uid != uid
    requires forall i, j :: 0 <= i < j < CAPACITY ==> slots[i] != slots[j]
    ensures Canceled(slots, head, count, uid) != Without(Ring(slots, head, count), uid)
  {
    var ring := Ring(slots, head, count);
    WithoutIsIdentity(ring, uid);
    var wrap := CAPACITY - head;
    // The event that lives in slot 0 is read at position wrap, after slot 0 was overwritten.
    assert ring[wrap] == slots[0] && ring[0] == slots[head];
    var first := slots[0 := slots[head]];
    CompactedKeepsSlot0(first, head, count, uid, 1);
  }

  lemma WithoutIsIdentity(s: seq<Event>, uid: nat)
    requires forall e :: e in s ==> e.uid != uid
    ensures Without(s, uid) == s
  {
  }

  /** When nothing matches, position k of the result is whatever slot (head + k) holds when it is read. */
  lemma {:induction false} CompactedKeepsSlot0(slots: seq<Event>, head: nat, count: nat, uid: nat, index: nat)
    requires |slots| == CAPACITY && 1 <= index <= count <= CAPACITY
    requires 0 < head < CAPACITY && head + count > CAPACITY && index <= CAPACITY - head
    requires forall i :: 0 <= i < CAPACITY ==> slots[i].uid != uid
    ensures var Compaction(after, n) := Compacted(slots, head, count, uid, index, index);
            n == count && after[CAPACITY - head] == slots[0]
    decreases CAPACITY - head - index
  {
    var e := slots[Slot(head, index)];
    if index == CAPACITY - head {
      CompactedFreezes(slots[index := e], head, count, uid, index + 1, index);
    } else {
      CompactedKeepsSlot0(slots[index := e], head, count, uid, index + 1);
    }
  }

  lemma {:induction false} CompactedFreezes(slots: seq<Event>, head: nat, count: nat, uid: nat, index: nat, at: nat)
    requires |slots| == CAPACITY && head < CAPACITY && at < index <= count <= CAPACITY
    requires forall i :: 0 <= i < CAPACITY ==> slots[i].uid != uid
    ensures var Compaction(after, n) := Compacted(slots, head, count, uid, index, index);
            n == count && after[at] == slots[at]
    decreases count - index
  {
    if index < count {
      CompactedFreezes(slots[index := slots[Slot(head, index)]], head, count, uid, index + 1, at);
    }
  }

  class Queue {
    var items: array<Event>
    var head: nat
    var count: nat

    ghost predicate Valid()
      reads this
    {
      items.Length == CAPACITY && head < CAPACITY && count <= CAPACITY
    }

    ghost function Contents(): (s: seq<Event>)
      requires Valid()
      reads this, items
    {
      Ring(items[..], head, count)
    }

    constructor ()
      ensures Valid() && fresh(items) && Contents() == []
    {
      items := new Event[CAPACITY](_ => Event(0, 0, 0, 0, 0));
      head, count := 0, 0;
    }

    method Push(event: Event) returns (ok: bool)
      requires Valid()
      modifies this`count, items
      ensures Valid()
      ensures ok <==> |old(Contents())| < 16
      ensures Contents() == if ok then old(Contents()) + [event] else old(Contents())
    {
      if count >= CAPACITY {
        return false;
      }
      var tail := Slot(head, count);
      ghost var before := items[..];
      items[tail] := event;
      count := count + 1;
      forall i | 0 <= i < count - 1
        ensures Contents()[i] == Ring(before, head, count - 1)[i]
      {
        assert Slot(head, i) != tail by { RingSlotsDiffer(head, i, count - 1); }
      }
      return true;
    }

    method Pop() returns (ok: bool, event: Event)
      requires Valid()
      modifies this`head, this`count
      ensures Valid()
      ensures ok <==> old(Contents()) != []
      ensures ok ==> old(Contents()) == [event] + Contents()
      ensures !ok ==> Contents() == []
    {
      event := items[head];
      if count == 0 {
        return false, event;
      }
      ghost var before := Contents();
      head := Slot(head, 1);
      count := count - 1;
      assert before == [event] + Contents();
      return true, event;
    }

    /** Keeps the events that do not carry uid, rewriting the slots from slot 0. */
    method CancelUid(uid: nat) returns (removed: bool)
      requires Valid()
      modifies this, items
      ensures Valid() && items == old(items)
      ensures Contents() == Canceled(old(items[..]), old(head), old(count), uid)
      ensures forall e :: e in Contents() ==> e.uid != uid
      ensures removed <==> |Contents()| < |old(Contents())|
      ensures old(head) + old(count) <= CAPACITY ==> Contents() == Without(old(Contents()), uid)
    {
      ghost var start := items[..];
      CanceledLeavesNone(start, head, count, uid);
      if head + count <= CAPACITY {
        CanceledUnwrapped(start, head, count, uid);
      }
      if count == 0 {
        return false;
      }
      var writeCount := 0;
      removed := false;
      var originalCount := count;
      for index := 0 to originalCount
        invariant writeCount <= index && items == old(items) && head == old(head) && count == originalCount
        invariant Compacted(items[..], head, originalCount, uid, index, writeCount) == Compacted(start, head, originalCount, uid, 0, 0)
        invariant removed <==> writeCount < index
      {
        var source := Slot(head, index);
        if items[source].uid == uid {
          removed := true;
        } else {
          items[writeCount] := items[source];
          writeCount := writeCount + 1;
        }
      }
      head := 0;
      count := writeCount;
      assert Contents() == items[..writeCount];
    }

    method Clear()
      requires Valid()
      modifies this
      ensures Valid() && items == old(items) && Contents() == []
    {
      head, count := 0, 0;
    }
  }

  lemma RingSlotsDiffer(head: nat, i: nat, j: nat)
    requires head < CAPACITY && i < j < CAPACITY
    ensures Slot(head, i) != Slot(head, j)
  {
  }
}
