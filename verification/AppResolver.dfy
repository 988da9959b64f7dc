/** The cache of app names: a least-recently-used list in sixteen slots. */
module AppResolver {

  // The slots are searched in place and carry the value of an age counter. A list
  // of ids and names in order of recency says what the cache is for; it is
  // refined until the counter, which has 32 bits, wraps around.

  import opened Wrappers

  const CAPACITY: nat := 16
  const APP_ID_MAX: nat := 256
  const APP_NAME_MAX: nat := 256
  const MAX_AGE: nat := 0xFFFF_FFFF

  datatype Entry = Entry(used: bool, age: nat, id: string, name: string)

  datatype Cache = Cache(entries: seq<Entry>, age: nat)

  datatype Resolution = UseNative | RequestNative | UseFallback

  const EMPTY: Entry := Entry(false, 0, "", "")

  predicate Bounded(text: string, maximum: nat) {
    0 < |text| <= maximum
  }

  function NextAge(age: nat): nat {
    (age + 1) % 0x1_0000_0000
  }

  // ---------- The searches ----------

  /** The first slot at or after i that holds the id, or CAPACITY. */
  function Find(entries: seq<Entry>, id: string, i: nat): (slot: nat)
    requires |entries| == CAPACITY && i <= CAPACITY
    ensures slot <= CAPACITY
    ensures slot < CAPACITY ==> entries[slot].used && entries[slot].id == id
    ensures forall j :: i <= j < slot ==> !(entries[j].used && entries[j].id == id)
    decreases CAPACITY - i
  {
    if i == CAPACITY || (entries[i].used && entries[i].id == id) then i else Find(entries, id, i + 1)
  }

  /** The first unused slot at or after i, or CAPACITY. */
  function FirstUnused(entries: seq<Entry>, i: nat): (slot: nat)
    requires |entries| == CAPACITY && i <= CAPACITY
    ensures slot <= CAPACITY
    ensures slot < CAPACITY ==> !entries[slot].used
    ensures forall j :: i <= j < slot ==> entries[j].used
    decreases CAPACITY - i
  {
    if i == CAPACITY || !entries[i].used then i else FirstUnused(entries, i + 1)
  }

  /** The slot with the smallest age among the first i slots, the first of them on a tie. */
  function Oldest(entries: seq<Entry>, i: nat): (slot: nat)
    requires |entries| == CAPACITY && 0 < i <= CAPACITY
    ensures slot < i
    ensures forall j :: 0 <= j < i ==> entries[slot].age <= entries[j].age
    ensures forall j :: 0 <= j < slot ==> entries[slot].age < entries[j].age
  {
    if i == 1 then 0
    else
      var best := Oldest(entries, i - 1);
      if entries[i - 1].age < entries[best].age then i - 1 else best
  }

  function Replacement(entries: seq<Entry>, id: string): (slot: nat)
    requires |entries| == CAPACITY
    ensures slot < CAPACITY
  {
    if Find(entries, id, 0) < CAPACITY then Find(entries, id, 0)
    else if FirstUnused(entries, 0) < CAPACITY then FirstUnused(entries, 0)
    else Oldest(entries, CAPACITY)
  }

  // ---------- The operations ----------

  /** Looks the app up; a hit makes it the most recent. */
  function Begun(c: Cache, id: string, room: nat): (r: (Cache, Resolution, string))
    requires |c.entries| == CAPACITY
    ensures |r.0.entries| == CAPACITY
  {
    if room == 0 || !Bounded(id, APP_ID_MAX) then (c, UseFallback, "")
    else
      var slot := Find(c.entries, id, 0);
      if slot == CAPACITY then (c, RequestNative, "")
      else if |c.entries[slot].name| >= room then (c, UseFallback, "")
      else
        (Cache(c.entries[slot := c.entries[slot].(age := NextAge(c.age))], NextAge(c.age)), UseNative, c.entries[slot].name)
  }

  /** Remembers the app's name. */
  function Completed(c: Cache, id: string, name: string, room: nat): (r: (Cache, Resolution, string))
    requires |c.entries| == CAPACITY
    ensures |r.0.entries| == CAPACITY
  {
    if room == 0 || !Bounded(id, APP_ID_MAX) || !Bounded(name, APP_NAME_MAX) || |name| >= room then (c, UseFallback, "")
    else
      (Cache(c.entries[Replacement(c.entries, id) := Entry(true, NextAge(c.age), id, name)], NextAge(c.age)), UseNative, name)
  }

  // ---------- The recency list ----------

  datatype Pair = Pair(id: string, name: string)

  function RemoveAt<T>(s: seq<T>, k: nat): seq<T>
    requires k < |s|
  {
    s[..k] + s[k + 1..]
  }

  /** The position of an id in a recency list, or its length. */
  function Position(list: seq<Pair>, id: string): (k: nat)
    ensures k <= |list|
    ensures k < |list| ==> list[k].id == id
    ensures forall j :: 0 <= j < k ==> list[j].id != id
  {
    if list == [] || list[0].id == id then 0 else 1 + Position(list[1..], id)
  }

  /** Looking up a list: a hit moves to the front. */
  function Looked(list: seq<Pair>, id: string, room: nat): (seq<Pair>, Resolution, string) {
    if room == 0 || !Bounded(id, APP_ID_MAX) then (list, UseFallback, "")
    else
      var k := Position(list, id);
      if k == |list| then (list, RequestNative, "")
      else if |list[k].name| >= room then (list, UseFallback, "")
      else ([list[k]] + RemoveAt(list, k), UseNative, list[k].name)
  }

  /** Remembering in a list: the pair moves to the front; a full list loses its last. */
  function Remembered(list: seq<Pair>, id: string, name: string, room: nat): (seq<Pair>, Resolution, string) {
    if room == 0 || !Bounded(id, APP_ID_MAX) || !Bounded(name, APP_NAME_MAX) || |name| >= room then (list, UseFallback, "")
    else
      var k := Position(list, id);
      var rest := if k < |list| then RemoveAt(list, k) else if |list| < CAPACITY then list else list[..|list| - 1];
      ([Pair(id, name)] + rest, UseNative, name)
  }

  /** Used slots, most recent first, each holding another id. */
  ghost predicate Chain(c: Cache, order: seq<nat>) {
    && |c.entries| == CAPACITY
    && (forall k :: 0 <= k < |order| ==> InUse(c, order[k]))
    && (forall j, k :: 0 <= j < k < |order| ==> Newer(c, order[j], order[k]))
  }

  ghost predicate InUse(c: Cache, slot: nat)
    requires |c.entries| == CAPACITY
  {
    slot < CAPACITY && c.entries[slot].used && 1 <= c.entries[slot].age <= c.age
  }

  ghost predicate Newer(c: Cache, a: nat, b: nat)
    requires |c.entries| == CAPACITY
  {
    && a < CAPACITY && b < CAPACITY
    && c.entries[a].age > c.entries[b].age && c.entries[a].id != c.entries[b].id
  }

  ghost predicate Covers(c: Cache, order: seq<nat>)
    requires |c.entries| == CAPACITY
  {
    forall slot: nat :: slot < CAPACITY && c.entries[slot].used ==> slot in order
  }

  /** All the used slots, most recent first. */
  ghost predicate Orders(c: Cache, order: seq<nat>) {
    Chain(c, order) && Covers(c, order)
  }

  ghost function PairIn(c: Cache, slot: nat): Pair
    requires |c.entries| == CAPACITY && slot < CAPACITY
  {
    Pair(c.entries[slot].id, c.entries[slot].name)
  }

  ghost function Listed(c: Cache, order: seq<nat>): (list: seq<Pair>)
    requires Chain(c, order)
    ensures |list| == |order|
  {
    seq(|order|, k requires 0 <= k < |order| => PairIn(c, order[k]))
  }

  ghost predicate Refines(c: Cache, list: seq<Pair>) {
    exists order :: Orders(c, order) && Listed(c, order) == list
  }

  lemma PositionOf(list: seq<Pair>, id: string, k: nat)
    requires k < |list| && list[k].id == id && forall i, j :: 0 <= i < j < |list| ==> list[i].id != list[j].id
    ensures Position(list, id) == k
  {
  }

  lemma FindIsPosition(c: Cache, order: seq<nat>, id: string)
    requires Orders(c, order)
    ensures var k := Position(Listed(c, order), id);
            var slot := Find(c.entries, id, 0);
            && (k < |order| <==> slot < CAPACITY)
            && (k < |order| ==> order[k] == slot)
  {
    var list := Listed(c, order);
    var slot := Find(c.entries, id, 0);
    if slot < CAPACITY {
      var j :| 0 <= j < |order| && order[j] == slot;
      forall a, b | 0 <= a < b < |list|
        ensures list[a].id != list[b].id
      {
        assert Newer(c, order[a], order[b]);
      }
      PositionOf(list, id, j);
    } else {
      forall j | 0 <= j < |order|
        ensures list[j].id != id
      {
        assert InUse(c, order[j]);
      }
    }
  }

  /** The cache after a slot was given a pair and the next age. */
  function Stamped(c: Cache, slot: nat, id: string, name: string): (c': Cache)
    requires |c.entries| == CAPACITY && slot < CAPACITY
    ensures |c'.entries| == CAPACITY
  {
    Cache(c.entries[slot := Entry(true, c.age + 1, id, name)], c.age + 1)
  }

  /** A stamped slot comes before the other slots, in their order. */
  lemma StampedLeads(c: Cache, rest: seq<nat>, slot: nat, id: string, name: string)
    requires Chain(c, rest) && slot < CAPACITY && slot !in rest
    requires forall k :: 0 <= k < |rest| ==> c.entries[rest[k]].id != id
    requires forall s: nat :: s < CAPACITY && c.entries[s].used && s != slot ==> s in rest
    ensures Orders(Stamped(c, slot, id, name), [slot] + rest)
    ensures Listed(Stamped(c, slot, id, name), [slot] + rest) == [Pair(id, name)] + Listed(c, rest)
  {
    var c' := Stamped(c, slot, id, name);
    var order := [slot] + rest;
    forall k | 0 <= k < |rest|
      ensures rest[k] != slot && InUse(c, rest[k]) && InUse(c', rest[k]) && Newer(c', slot, rest[k])
    {
      assert rest[k] in rest;
    }
    assert forall k :: 0 <= k < |order| ==> order[k] == if k == 0 then slot else rest[k - 1];
    forall j, k | 0 <= j < k < |order|
      ensures Newer(c', order[j], order[k])
    {
      if j > 0 {
        assert Newer(c, rest[j - 1], rest[k - 1]);
      }
    }
    forall s: nat | s < CAPACITY && c'.entries[s].used
      ensures s in order
    {
      if s != slot {
        assert s in rest;
      }
    }
    assert Listed(c', order) == [Pair(id, name)] + Listed(c, rest);
  }

  /** A slot of the order, stamped with a name, moves to its front. */
  lemma MovedToFront(c: Cache, order: seq<nat>, k: nat, name: string)
    requires Orders(c, order) && k < |order|
    ensures var c' := Stamped(c, order[k], c.entries[order[k]].id, name);
            && Orders(c', [order[k]] + RemoveAt(order, k))
            && Listed(c', [order[k]] + RemoveAt(order, k)) == [Pair(c.entries[order[k]].id, name)] + RemoveAt(Listed(c, order), k)
  {
    var slot := order[k];
    var rest := RemoveAt(order, k);
    RestOfOrder(c, order, k);
    assert Listed(c, rest) == RemoveAt(Listed(c, order), k);
    hide Orders, Chain, Listed, RemoveAt;
    StampedLeads(c, rest, slot, c.entries[slot].id, name);
  }

  lemma RestOfOrder(c: Cache, order: seq<nat>, k: nat)
    requires Orders(c, order) && k < |order|
    ensures var rest, slot := RemoveAt(order, k), order[k];
            && Chain(c, rest) && slot !in rest
            && (forall i :: 0 <= i < |rest| ==> c.entries[rest[i]].id != c.entries[slot].id)
            && (forall s: nat :: s < CAPACITY && c.entries[s].used && s != slot ==> s in rest)
  {
    var slot := order[k];
    var rest := RemoveAt(order, k);
    assert forall i :: 0 <= i < |rest| ==> rest[i] == order[if i < k then i else i + 1];
    assert Chain(c, rest);
    forall i | 0 <= i < |order| && i != k
      ensures order[i] != slot && c.entries[order[i]].id != c.entries[slot].id
    {
      assert if i < k then Newer(c, order[i], slot) else Newer(c, slot, order[i]);
    }
    forall s: nat | s < CAPACITY && c.entries[s].used && s != slot
      ensures s in rest
    {
      var i :| 0 <= i < |order| && order[i] == s;
      assert rest[if i < k then i else i - 1] == s;
    }
  }

  /** A free slot, or the last of the order, takes the front for a new id. */
  lemma PutInFront(c: Cache, order: seq<nat>, slot: nat, id: string, name: string)
    requires Orders(c, order) && slot < CAPACITY && Position(Listed(c, order), id) == |order|
    requires slot !in order || order[|order| - 1] == slot
    ensures var kept := if slot in order then |order| - 1 else |order|;
            && Orders(Stamped(c, slot, id, name), [slot] + order[..kept])
            && Listed(Stamped(c, slot, id, name), [slot] + order[..kept]) == [Pair(id, name)] + Listed(c, order)[..kept]
  {
    var list := Listed(c, order);
    var kept := if slot in order then |order| - 1 else |order|;
    var rest := order[..kept];
    forall k | 0 <= k < kept
      ensures order[k] != slot && c.entries[order[k]].id != id
    {
      assert list[k].id != id;
      assert slot in order ==> Newer(c, order[k], slot);
    }
    forall s: nat | s < CAPACITY && c.entries[s].used && s != slot
      ensures s in rest
    {
      var i :| 0 <= i < |order| && order[i] == s;
      assert rest[i] == s;
    }
    assert Listed(c, rest) == list[..kept];
    hide Orders, Listed;
    StampedLeads(c, rest, slot, id, name);
  }

  // ---------- Counting slots ----------

  /** The numbers below n. */
  ghost function Below(n: nat): (s: set<nat>)
    ensures |s| == n && forall x: nat :: x in s <==> x < n
  {
    if n == 0 then {} else Below(n - 1) + {n - 1}
  }

  ghost function Elements(order: seq<nat>): (s: set<nat>)
    ensures forall x: nat :: x in s <==> x in order
  {
    if order == [] then {} else Elements(order[..|order| - 1]) + {order[|order| - 1]}
  }

  lemma {:induction false} DistinctCardinality(order: seq<nat>)
    requires forall j, k :: 0 <= j < k < |order| ==> order[j] != order[k]
    ensures |Elements(order)| == |order|
  {
    if order != [] {
      DistinctCardinality(order[..|order| - 1]);
    }
  }

  lemma {:induction false} SubsetCardinality(a: set<nat>, b: set<nat>)
    requires a <= b
    ensures |a| <= |b|
    decreases a
  {
    if a != {} {
      var x :| x in a;
      SubsetCardinality(a - {x}, b - {x});
    }
  }

  /** An order is no longer than the slots it may use. */
  lemma OrderFits(c: Cache, order: seq<nat>, slots: set<nat>)
    requires Chain(c, order) && forall k :: 0 <= k < |order| ==> order[k] in slots
    ensures |order| <= |slots|
  {
    forall j, k | 0 <= j < k < |order|
      ensures order[j] != order[k]
    {
      assert Newer(c, order[j], order[k]);
    }
    DistinctCardinality(order);
    SubsetCardinality(Elements(order), slots);
  }

  /** A full order has every slot and ends with the oldest. */
  lemma OldestIsLast(c: Cache, order: seq<nat>)
    requires Orders(c, order) && FirstUnused(c.entries, 0) == CAPACITY
    ensures |order| == CAPACITY && order[|order| - 1] == Oldest(c.entries, CAPACITY)
  {
    hide Below, Elements;
    forall k | 0 <= k < |order|
      ensures order[k] in Below(CAPACITY)
    {
      assert InUse(c, order[k]);
    }
    OrderFits(c, order, Below(CAPACITY));
    forall slot: nat | slot < CAPACITY
      ensures slot in order
    {
      assert c.entries[slot].used;
    }
    forall x | x in Below(CAPACITY)
      ensures x in Elements(order)
    {
    }
    SubsetCardinality(Below(CAPACITY), Elements(order));
    forall j, k | 0 <= j < k < |order|
      ensures order[j] != order[k]
    {
      assert Newer(c, order[j], order[k]);
    }
    DistinctCardinality(order);
    LastIsOldest(c, order);
  }

  lemma LastIsOldest(c: Cache, order: seq<nat>)
    requires Chain(c, order) && order != [] && Oldest(c.entries, CAPACITY) in order
    ensures order[|order| - 1] == Oldest(c.entries, CAPACITY)
  {
    var j :| 0 <= j < |order| && order[j] == Oldest(c.entries, CAPACITY);
    var last := |order| - 1;
    assert InUse(c, order[last]);
    assert j < last ==> Newer(c, order[j], order[last]);
  }

  /** Fewer than all slots are used when one is free. */
  lemma FreeSlotMeansRoom(c: Cache, order: seq<nat>)
    requires Orders(c, order) && FirstUnused(c.entries, 0) < CAPACITY
    ensures |order| < CAPACITY && FirstUnused(c.entries, 0) !in order
  {
    hide Below, Elements, Covers;
    var free := FirstUnused(c.entries, 0);
    var others := Below(CAPACITY) - {free};
    assert |others| == CAPACITY - 1;
    forall k | 0 <= k < |order|
      ensures order[k] in others
    {
      assert InUse(c, order[k]);
    }
    hide Chain, FirstUnused;
    OrderFits(c, order, others);
  }

  // ---------- The slots refine the list ----------

  /** The slots start out as the empty list. */
  lemma InitialRefines()
    ensures Refines(Fresh(), [])
  {
    var c := Fresh();
    assert Orders(c, []) && Listed(c, []) == [];
  }

  lemma HitRefines(c: Cache, list: seq<Pair>, id: string, name: string)
    requires |c.entries| == CAPACITY && Refines(c, list) && Find(c.entries, id, 0) < CAPACITY
    ensures var k, slot := Position(list, id), Find(c.entries, id, 0);
            && k < |list| && list[k] == PairIn(c, slot) && c.entries[slot].used && c.entries[slot].id == id
            && Refines(Stamped(c, slot, id, name), [Pair(id, name)] + RemoveAt(list, k))
  {
    var order :| Orders(c, order) && Listed(c, order) == list;
    FindIsPosition(c, order, id);
    var k := Position(list, id);
    assert list[k] == PairIn(c, order[k]);
    hide Orders, Listed, Find, Position;
    MovedToFront(c, order, k, name);
  }

  lemma FreeSlotIsTaken(c: Cache, order: seq<nat>, id: string, name: string)
    requires Orders(c, order) && Position(Listed(c, order), id) == |order| && FirstUnused(c.entries, 0) < CAPACITY
    ensures |order| < CAPACITY
    ensures Refines(Stamped(c, FirstUnused(c.entries, 0), id, name), [Pair(id, name)] + Listed(c, order))
  {
    FreeSlotMeansRoom(c, order);
    hide Orders, Listed, Position, FirstUnused;
    PutInFront(c, order, FirstUnused(c.entries, 0), id, name);
    assert order[..|order|] == order && Listed(c, order)[..|order|] == Listed(c, order);
  }

  lemma OldestIsEvicted(c: Cache, order: seq<nat>, id: string, name: string)
    requires Orders(c, order) && Position(Listed(c, order), id) == |order| && FirstUnused(c.entries, 0) == CAPACITY
    ensures |order| == CAPACITY
    ensures Refines(Stamped(c, Oldest(c.entries, CAPACITY), id, name), [Pair(id, name)] + Listed(c, order)[..|order| - 1])
  {
    var list := Listed(c, order);
    OldestIsLast(c, order);
    hide Chain, Covers, Orders, Listed, Position, FirstUnused, Oldest;
    var slot := Oldest(c.entries, CAPACITY);
    PutInFront(c, order, slot, id, name);
  }

  lemma MissRefines(c: Cache, list: seq<Pair>, id: string, name: string)
    requires |c.entries| == CAPACITY && Refines(c, list) && Find(c.entries, id, 0) == CAPACITY
    ensures Position(list, id) == |list|
    ensures |list| <= CAPACITY
    ensures Refines(Stamped(c, Replacement(c.entries, id), id, name),
                    [Pair(id, name)] + if |list| < CAPACITY then list else list[..|list| - 1])
  {
    var order :| Orders(c, order) && Listed(c, order) == list;
    hide Refines, Orders, Listed, Find, Position, FirstUnused, Oldest;
    FindIsPosition(c, order, id);
    if FirstUnused(c.entries, 0) < CAPACITY {
      FreeSlotIsTaken(c, order, id, name);
    } else {
      OldestIsEvicted(c, order, id, name);
    }
  }

  /** Until the age counter wraps, a look-up in the slots is a look-up in the recency list. */
  lemma BegunRefines(c: Cache, list: seq<Pair>, id: string, room: nat)
    requires |c.entries| == CAPACITY && Refines(c, list) && c.age < MAX_AGE
    ensures var (c', resolution, output) := Begun(c, id, room);
            var (list', resolution', output') := Looked(list, id, room);
            Refines(c', list') && resolution == resolution' && output == output'
  {
    hide Refines, Find, Position;
    var slot := Find(c.entries, id, 0);
    if slot < CAPACITY {
      HitRefines(c, list, id, c.entries[slot].name);
      assert c.entries[slot].(age := c.age + 1) == Entry(true, c.age + 1, id, c.entries[slot].name);
    } else {
      MissRefines(c, list, id, "");
    }
  }

  /** Until the age counter wraps, remembering evicts exactly the least recently used id. */
  lemma CompletedRefines(c: Cache, list: seq<Pair>, id: string, name: string, room: nat)
    requires |c.entries| == CAPACITY && Refines(c, list) && c.age < MAX_AGE
    ensures var (c', resolution, output) := Completed(c, id, name, room);
            var (list', resolution', output') := Remembered(list, id, name, room);
            Refines(c', list') && resolution == resolution' && output == output'
  {
    hide Refines, Find, Position, FirstUnused, Oldest;
    if Find(c.entries, id, 0) < CAPACITY {
      HitRefines(c, list, id, name);
    } else {
      MissRefines(c, list, id, name);
    }
  }

  /** A list holds at most sixteen apps, each once. */
  lemma ListIsBounded(c: Cache, list: seq<Pair>)
    requires Refines(c, list)
    ensures |list| <= CAPACITY && forall j, k :: 0 <= j < k < |list| ==> list[j].id != list[k].id
  {
    var order :| Orders(c, order) && Listed(c, order) == list;
    forall k | 0 <= k < |order|
      ensures order[k] in Below(CAPACITY)
    {
      assert InUse(c, order[k]);
    }
    OrderFits(c, order, Below(CAPACITY));
    forall j, k | 0 <= j < k < |list|
      ensures list[j].id != list[k].id
    {
      assert Newer(c, order[j], order[k]);
    }
  }

  // ---------- Histories ----------

  datatype Event = Begin(id: string, room: nat) | Complete(id: string, name: string, room: nat)

  function Fresh(): (c: Cache)
    ensures |c.entries| == CAPACITY
  {
    Cache(seq(CAPACITY, _ => EMPTY), 0)
  }

  function After(c: Cache, e: Event): (r: (Cache, Resolution, string))
    requires |c.entries| == CAPACITY
    ensures |r.0.entries| == CAPACITY
  {
    match e
    case Begin(id, room) => Begun(c, id, room)
    case Complete(id, name, room) => Completed(c, id, name, room)
  }

  function ListAfter(list: seq<Pair>, e: Event): (seq<Pair>, Resolution, string) {
    match e
    case Begin(id, room) => Looked(list, id, room)
    case Complete(id, name, room) => Remembered(list, id, name, room)
  }

  ghost function Run(events: seq<Event>): (c: Cache)
    ensures |c.entries| == CAPACITY
  {
    if events == [] then Fresh() else After(Run(events[..|events| - 1]), events[|events| - 1]).0
  }

  ghost function RunList(events: seq<Event>): seq<Pair> {
    if events == [] then [] else ListAfter(RunList(events[..|events| - 1]), events[|events| - 1]).0
  }

  /** The operations that gave a slot a new age: the hits, and the names remembered. */
  ghost function Stamps(events: seq<Event>): nat {
    if events == [] then 0
    else
      var before, e := events[..|events| - 1], events[|events| - 1];
      Stamps(before) + (if After(Run(before), e).1 == UseNative then 1 else 0)
  }

  lemma OneMore(events: seq<Event>, e: Event)
    ensures Run(events + [e]) == After(Run(events), e).0
    ensures Stamps(events + [e]) == Stamps(events) + (if After(Run(events), e).1 == UseNative then 1 else 0)
  {
    hide After;
    assert (events + [e])[..|events|] == events;
  }

  /** Every operation refines its counterpart on the list, or changes nothing. */
  lemma EventRefines(c: Cache, list: seq<Pair>, e: Event)
    requires |c.entries| == CAPACITY && Refines(c, list)
    requires After(c, e).1 == UseNative ==> c.age < MAX_AGE
    ensures Refines(After(c, e).0, ListAfter(list, e).0)
    ensures After(c, e).1 == ListAfter(list, e).1 && After(c, e).2 == ListAfter(list, e).2
    ensures After(c, e).0.age == if After(c, e).1 == UseNative then c.age + 1 else c.age
  {
    hide Refines, Begun, Completed, Looked, Remembered;
    if c.age < MAX_AGE {
      match e
      case Begin(id, room) =>
        BegunRefines(c, list, id, room);
        AgeMoves(c, e);
      case Complete(id, name, room) =>
        CompletedRefines(c, list, id, name, room);
        AgeMoves(c, e);
    } else {
      RefusalRefines(c, list, e);
    }
  }

  lemma AgeMoves(c: Cache, e: Event)
    requires |c.entries| == CAPACITY
    ensures After(c, e).0.age == if After(c, e).1 == UseNative then NextAge(c.age) else c.age
    ensures After(c, e).1 != UseNative ==> After(c, e).0 == c
  {
    hide Find, FirstUnused, Oldest;
  }

  /** A slot is found exactly if the list has the id, and holds its pair. */
  lemma SlotHoldsPair(c: Cache, list: seq<Pair>, id: string)
    requires |c.entries| == CAPACITY && Refines(c, list)
    ensures var k, slot := Position(list, id), Find(c.entries, id, 0);
            (k < |list| <==> slot < CAPACITY) && (k < |list| ==> list[k] == PairIn(c, slot))
  {
    var order :| Orders(c, order) && Listed(c, order) == list;
    FindIsPosition(c, order, id);
  }

  lemma RefusalRefines(c: Cache, list: seq<Pair>, e: Event)
    requires |c.entries| == CAPACITY && Refines(c, list) && After(c, e).1 != UseNative
    ensures After(c, e).0 == c && ListAfter(list, e).0 == list
    ensures After(c, e).1 == ListAfter(list, e).1 && After(c, e).2 == ListAfter(list, e).2
  {
    hide Refines, Find, Position, FirstUnused, Oldest;
    SlotHoldsPair(c, list, e.id);
  }

  /**
   * Over every history with fewer than 2^32 hits and names remembered, the
   * slots are the recency list and answer as it does.
   */
  lemma {:induction false} RunsRefine(events: seq<Event>)
    requires Stamps(events) <= MAX_AGE
    ensures Refines(Run(events), RunList(events)) && Run(events).age == Stamps(events)
    ensures events != [] ==>
              var before, e := events[..|events| - 1], events[|events| - 1];
              After(Run(before), e).1 == ListAfter(RunList(before), e).1 && After(Run(before), e).2 == ListAfter(RunList(before), e).2
    decreases |events|
  {
    hide Refines, After, ListAfter;
    if events == [] {
      InitialRefines();
    } else {
      var before := events[..|events| - 1];
      RunsRefine(before);
      EventRefines(Run(before), RunList(before), events[|events| - 1]);
    }
  }

  // ---------- The list holds the most recently used apps ----------

  /** When an app was last used, counted in operations: looked up with success, or remembered. */
  ghost function LastUse(events: seq<Event>, id: string): (n: nat)
    ensures n <= |events|
  {
    if events == [] then 0
    else
      var before, e := events[..|events| - 1], events[|events| - 1];
      if e.id == id && After(Run(before), e).1 == UseNative then |events| else LastUse(before, id)
  }

  /** The list is in the order of last use, and every app that was used and is not in it was used before all of them. */
  ghost predicate MostRecent(list: seq<Pair>, events: seq<Event>) {
    && |list| <= CAPACITY
    && (forall j :: 0 <= j < |list| ==> LastUse(events, list[j].id) > 0)
    && (forall j, k :: 0 <= j < k < |list| ==> LastUse(events, list[j].id) > LastUse(events, list[k].id))
    && forall id :: LastUse(events, id) > 0 && Position(list, id) == |list| ==> OlderThanAll(list, events, id)
  }

  ghost predicate OlderThanAll(list: seq<Pair>, events: seq<Event>, id: string) {
    |list| == 16 && forall j :: 0 <= j < |list| ==> LastUse(events, list[j].id) > LastUse(events, id)
  }

  lemma UseStep(events: seq<Event>, e: Event, id: string)
    ensures LastUse(events + [e], id)
         == if e.id == id && After(Run(events), e).1 == UseNative then |events| + 1 else LastUse(events, id)
  {
    hide After, Run;
    assert (events + [e])[..|events|] == events;
  }

  /** The next list, from the rest of the old one without position k, or without its last. */
  lemma RestOf(list: seq<Pair>, k: nat)
    requires k <= |list| <= CAPACITY
    ensures var rest := if k < |list| then RemoveAt(list, k) else if |list| < CAPACITY then list else list[..|list| - 1];
            && |rest| + 1 == (if k < |list| then |list| else if |list| < CAPACITY then |list| + 1 else CAPACITY)
            && forall j :: 0 <= j < |rest| ==> rest[j] == list[if j + 1 <= k then j else j + 1]
  {
  }

  /** Where the pairs of the next list come from: the first is the one used, the others keep their order. */
  lemma NextList(list: seq<Pair>, e: Event)
    requires ListAfter(list, e).1 == UseNative && |list| <= CAPACITY
    ensures var l, k := ListAfter(list, e).0, Position(list, e.id);
            && 0 < |l| <= CAPACITY && l[0].id == e.id
            && |l| == (if k < |list| then |list| else if |list| < CAPACITY then |list| + 1 else CAPACITY)
            && forall j :: 1 <= j < |l| ==> l[j] == list[if j <= k then j - 1 else j]
  {
    hide ListAfter, RemoveAt, Position;
    RestOf(list, Position(list, e.id));
    LeadsTheRest(list, e);
  }

  lemma LeadsTheRest(list: seq<Pair>, e: Event)
    requires ListAfter(list, e).1 == UseNative && |list| <= CAPACITY
    ensures var l, k := ListAfter(list, e).0, Position(list, e.id);
            && l != [] && l[0].id == e.id
            && l == [l[0]] + (if k < |list| then RemoveAt(list, k) else if |list| < CAPACITY then list else list[..|list| - 1])
  {
    hide RemoveAt, Position;
  }

  lemma {:induction false} NotIn(list: seq<Pair>, id: string)
    ensures Position(list, id) == |list| <==> forall j :: 0 <= j < |list| ==> list[j].id != id
  {
    if list != [] && list[0].id != id {
      NotIn(list[1..], id);
    }
  }

  /** Which pair of the old list is at position j > 0 of the new one, where k was used. */
  function Source(k: nat, j: nat): nat
    requires j > 0
  {
    if j <= k then j - 1 else j
  }

  /** The next list, told by what is where. */
  ghost predicate Follows(list: seq<Pair>, l: seq<Pair>, k: nat, id: string) {
    && k <= |list| <= CAPACITY && 0 < |l| && l[0].id == id
    && |l| == (if k < |list| then |list| else if |list| < CAPACITY then |list| + 1 else CAPACITY)
    && (forall j :: 0 <= j < |list| ==> (list[j].id == id <==> j == k))
    && forall j :: 1 <= j < |l| ==> l[j] == list[Source(k, j)]
  }

  ghost predicate Used(events: seq<Event>, now: seq<Event>, id: string) {
    forall other :: LastUse(now, other) == if other == id then |events| + 1 else LastUse(events, other)
  }

  lemma UsingKeepsOrder(list: seq<Pair>, events: seq<Event>, e: Event)
    requires MostRecent(list, events) && ListAfter(list, e).1 == UseNative && After(Run(events), e).1 == UseNative
    ensures MostRecent(ListAfter(list, e).0, events + [e])
  {
    hide After, Run, ListAfter, Position, LastUse, OlderThanAll;
    var l, k, now := ListAfter(list, e).0, Position(list, e.id), events + [e];
    NextList(list, e);
    OthersAreNot(list, e.id, events);
    forall other
      ensures LastUse(now, other) == if other == e.id then |events| + 1 else LastUse(events, other)
    {
      UseStep(events, e, other);
    }
    assert Follows(list, l, k, e.id) && Used(events, now, e.id);
    OrderIsKept(list, events, l, now, k, e.id);
    forall id | LastUse(now, id) > 0 && Position(l, id) == |l|
      ensures OlderThanAll(l, now, id)
    {
      NotIn(l, id);
      LeftOut(list, events, l, now, k, e.id, id);
    }
  }

  lemma OrderIsKept(list: seq<Pair>, events: seq<Event>, l: seq<Pair>, now: seq<Event>, k: nat, id: string)
    requires MostRecent(list, events) && Follows(list, l, k, id) && Used(events, now, id)
    ensures forall j :: 0 <= j < |l| ==> LastUse(now, l[j].id) > 0
    ensures forall j, m :: 0 <= j < m < |l| ==> LastUse(now, l[j].id) > LastUse(now, l[m].id)
  {
    hide LastUse, OlderThanAll, Position;
    forall j | 1 <= j < |l|
      ensures 0 < LastUse(now, l[j].id) == LastUse(events, list[Source(k, j)].id) <= |events|
    {
      assert l[j] == list[Source(k, j)];
    }
    forall j, m | 1 <= j < m < |l|
      ensures LastUse(now, l[j].id) > LastUse(now, l[m].id)
    {
      assert Source(k, j) < Source(k, m);
    }
  }

  lemma OthersAreNot(list: seq<Pair>, id: string, events: seq<Event>)
    requires MostRecent(list, events)
    ensures forall j :: 0 <= j < |list| && j != Position(list, id) ==> list[j].id != id
  {
    hide LastUse;
    var k := Position(list, id);
    forall j | 0 <= j < |list| && j != k
      ensures list[j].id != id
    {
      if k < j {
        assert LastUse(events, list[k].id) > LastUse(events, list[j].id);
      }
    }
  }

  /** A pair leaves the list only as the last of a full one. */
  lemma WasLast(list: seq<Pair>, l: seq<Pair>, k: nat, used: string, i: nat)
    requires Follows(list, l, k, used) && i < |list|
    requires forall j :: 0 <= j < |l| ==> l[j].id != list[i].id
    ensures k == |list| == CAPACITY && i == CAPACITY - 1
  {
    assert l[0].id != list[i].id && i != k;
    assert forall j :: 1 <= j < |l| ==> Source(k, j) != i;
    assert Source(k, if i < k then i + 1 else i) == i;
  }

  lemma LeftOut(list: seq<Pair>, events: seq<Event>, l: seq<Pair>, now: seq<Event>, k: nat, used: string, id: string)
    requires MostRecent(list, events) && Follows(list, l, k, used) && Used(events, now, used)
    requires LastUse(now, id) > 0 && forall j :: 0 <= j < |l| ==> l[j].id != id
    ensures OlderThanAll(l, now, id)
  {
    hide LastUse, Position;
    NotIn(list, id);
    assert l[0].id != id;
    if i: nat :| i < |list| && list[i].id == id {
      WasLast(list, l, k, used, i);
      AllNewer(list, events, l, now, k, used, id, LastUse(events, id), CAPACITY - 1);
    } else {
      assert OlderThanAll(list, events, id);
      AllNewer(list, events, l, now, k, used, id, LastUse(events, id), |list|);
    }
  }

  lemma AllNewer(list: seq<Pair>, events: seq<Event>, l: seq<Pair>, now: seq<Event>, k: nat, used: string, id: string,
                 old0: nat, kept: nat)
    requires Follows(list, l, k, used) && Used(events, now, used) && id != used
    requires old0 == LastUse(events, id) && |list| == CAPACITY && kept <= |list| && (k == |list| || kept == |list|)
    requires kept >= CAPACITY - 1 && forall j :: 0 <= j < kept ==> LastUse(events, list[j].id) > old0
    ensures OlderThanAll(l, now, id)
  {
    hide LastUse;
    forall j | 0 <= j < |l|
      ensures LastUse(now, l[j].id) > LastUse(now, id)
    {
      if j > 0 {
        assert l[j] == list[Source(k, j)] && Source(k, j) < kept;
      }
    }
  }

  lemma RefusalKeepsOrder(list: seq<Pair>, events: seq<Event>, e: Event)
    requires MostRecent(list, events) && After(Run(events), e).1 != UseNative
    ensures MostRecent(list, events + [e])
  {
    hide After, Run, LastUse;
    forall id
      ensures LastUse(events + [e], id) == LastUse(events, id)
    {
      UseStep(events, e, id);
    }
  }

  /**
   * Over every history with fewer than 2^32 hits and names remembered, the
   * slots hold the sixteen most recently used apps, and the list gives their
   * order: whatever was evicted was used before all of them.
   */
  lemma {:induction false} ListIsMostRecent(events: seq<Event>)
    requires Stamps(events) <= MAX_AGE
    ensures Refines(Run(events), RunList(events)) && MostRecent(RunList(events), events)
    decreases |events|
  {
    hide Refines, After, ListAfter, MostRecent, Position;
    RunsRefine(events);
    if events == [] {
      assert MostRecent([], []) by {
        NothingUsed();
      }
    } else {
      var before, e := events[..|events| - 1], events[|events| - 1];
      ListIsMostRecent(before);
      assert events == before + [e];
      if After(Run(before), e).1 == UseNative {
        UsingKeepsOrder(RunList(before), before, e);
      } else {
        RefusalRefines(Run(before), RunList(before), e);
        RefusalKeepsOrder(RunList(before), before, e);
      }
    }
  }

  lemma NothingUsed()
    ensures MostRecent([], [])
  {
  }

  /** A name and an id within their limits are remembered, and found by the next look-up with room for the name. */
  lemma RememberedIsFound(c: Cache, id: string, name: string, room: nat, next: nat)
    requires |c.entries| == CAPACITY && 0 < |id| <= 256 && 0 < |name| <= 256 && |name| < room && |name| < next
    requires forall a: nat, b: nat :: a < b < CAPACITY && c.entries[a].used && c.entries[b].used ==> c.entries[a].id != c.entries[b].id
    ensures Completed(c, id, name, room).1 == UseNative && Completed(c, id, name, room).2 == name
    ensures Begun(Completed(c, id, name, room).0, id, next).1 == UseNative
    ensures Begun(Completed(c, id, name, room).0, id, next).2 == name
  {
    hide Oldest;
    var slot, after := Replacement(c.entries, id), Completed(c, id, name, room).0;
    assert after.entries[slot] == Entry(true, NextAge(c.age), id, name);
    OnlySlot(c.entries, slot, after.entries);
  }

  /** The slot that is replaced for an id is the only one with the id afterwards. */
  lemma OnlySlot(entries: seq<Entry>, slot: nat, after: seq<Entry>)
    requires |entries| == |after| == CAPACITY && slot < CAPACITY && after[slot].used
    requires after == entries[slot := after[slot]] && slot == Replacement(entries, after[slot].id)
    requires forall a: nat, b: nat :: a < b < CAPACITY && entries[a].used && entries[b].used ==> entries[a].id != entries[b].id
    ensures Find(after, after[slot].id, 0) == slot
  {
    hide Oldest, FirstUnused;
    var id := after[slot].id;
    assert forall j :: 0 <= j < CAPACITY && j != slot ==> !(entries[j].used && entries[j].id == id);
  }

  // ---------- A hit returns the last name ----------

  /** The name last remembered for an id. */
  ghost function LastName(events: seq<Event>, id: string): Option<string> {
    if events == [] then None
    else
      var before, e := events[..|events| - 1], events[|events| - 1];
      if e.Complete? && e.id == id && After(Run(before), e).1 == UseNative then Some(e.name) else LastName(before, id)
  }

  /** Used slots hold different ids, each with the name last remembered for it. */
  ghost predicate NamesAreLast(c: Cache, events: seq<Event>)
    requires |c.entries| == CAPACITY
  {
    && (forall a: nat :: a < CAPACITY && c.entries[a].used ==> LastName(events, c.entries[a].id) == Some(c.entries[a].name))
    && forall a: nat, b: nat :: a < b < CAPACITY && c.entries[a].used && c.entries[b].used ==> c.entries[a].id != c.entries[b].id
  }

  lemma {:induction false} NamesStayLast(events: seq<Event>)
    ensures NamesAreLast(Run(events), events)
    decreases |events|
  {
    if events != [] {
      var before, e := events[..|events| - 1], events[|events| - 1];
      var c := Run(before);
      NamesStayLast(before);
      hide Find, FirstUnused, Oldest, Run;
      match e
      case Begin(id, room) => assert NamesAreLast(After(c, e).0, events);
      case Complete(id, name, room) => assert NamesAreLast(After(c, e).0, events);
    }
  }

  /** Over every history, wrapped or not, a hit returns the name last remembered for the id. */
  lemma HitReturnsLastName(events: seq<Event>, id: string, room: nat)
    requires Begun(Run(events), id, room).1 == UseNative
    ensures LastName(events, id) == Some(Begun(Run(events), id, room).2)
    ensures |Begun(Run(events), id, room).2| < room
  {
    hide Run;
    NamesStayLast(events);
  }

  // ---------- The wrap of the age counter ----------

  ghost predicate Full(c: Cache)
    requires |c.entries| == CAPACITY
  {
    forall s: nat :: s < CAPACITY ==> c.entries[s].used
  }

  /** The slot an operation gives a new age. */
  function SlotOf(c: Cache, e: Event): (slot: nat)
    requires |c.entries| == CAPACITY && After(c, e).1 == UseNative
    ensures slot < CAPACITY
  {
    if e.Begin? then Find(c.entries, e.id, 0) else Replacement(c.entries, e.id)
  }

  lemma StampMoves(c: Cache, e: Event)
    requires |c.entries| == CAPACITY && After(c, e).1 == UseNative && Full(c)
    ensures var after, slot := After(c, e).0, SlotOf(c, e);
            && Full(after) && after.age == NextAge(c.age)
            && after.entries[slot].age == NextAge(c.age) && after.entries[slot].id == e.id
            && forall s: nat :: s < CAPACITY && s != slot ==> after.entries[s] == c.entries[s]
  {
    hide Find, FirstUnused, Oldest;
  }

  /** The id the next new name evicts from a full cache. */
  ghost function Victim(c: Cache): string
    requires |c.entries| == CAPACITY
  {
    c.entries[Oldest(c.entries, CAPACITY)].id
  }

  lemma FullIsFull(c: Cache)
    requires |c.entries| == CAPACITY && Full(c)
    ensures FirstUnused(c.entries, 0) == CAPACITY
  {
  }

  /** While the slots are the list, the victim is its last id. */
  lemma VictimIsLast(c: Cache, list: seq<Pair>)
    requires |c.entries| == CAPACITY && Refines(c, list) && Full(c)
    ensures |list| == CAPACITY && Victim(c) == list[CAPACITY - 1].id
  {
    hide Oldest, Full;
    FullIsFull(c);
    var order :| Orders(c, order) && Listed(c, order) == list;
    OldestIsLast(c, order);
    assert list[CAPACITY - 1] == PairIn(c, order[CAPACITY - 1]);
  }

  /** The slot whose age wrapped to 0 is the victim. */
  lemma WrappedIsVictim(c: Cache, list: seq<Pair>, e: Event)
    requires |c.entries| == CAPACITY && Refines(c, list) && Full(c) && c.age == MAX_AGE && After(c, e).1 == UseNative
    ensures Victim(After(c, e).0) == e.id
  {
    hide After, SlotOf, FirstUnused, Oldest, Refines;
    StampMoves(c, e);
    FullIsFull(c);
    UsedSlotsHaveAges(c, list);
    var after, slot := After(c, e).0, SlotOf(c, e);
    var victim := Oldest(after.entries, CAPACITY);
    assert after.entries[victim].age <= after.entries[slot].age == 0;
  }

  /** In a full list, the id an operation used moves to the front, and another one is last. */
  lemma UsedLeads(list: seq<Pair>, e: Event)
    requires |list| == CAPACITY && ListAfter(list, e).1 == UseNative
    requires forall j, k :: 0 <= j < k < |list| ==> list[j].id != list[k].id
    ensures var l := ListAfter(list, e).0; |l| == CAPACITY && l[0].id == e.id && l[CAPACITY - 1].id != e.id
  {
    var k := Position(list, e.id);
    var last := if k == CAPACITY - 1 || k == CAPACITY then CAPACITY - 2 else CAPACITY - 1;
    assert ListAfter(list, e).0[CAPACITY - 1] == list[last];
    assert k < |list| ==> list[k].id == e.id;
  }

  lemma SameResolution(c: Cache, list: seq<Pair>, e: Event)
    requires |c.entries| == CAPACITY && Refines(c, list) && After(c, e).1 == UseNative
    ensures ListAfter(list, e).1 == UseNative
  {
    hide Refines, Find, Position, FirstUnused, Oldest;
    SlotHoldsPair(c, list, e.id);
  }

  lemma UsedIsFirst(c: Cache, list: seq<Pair>, e: Event)
    requires |c.entries| == CAPACITY && Refines(c, list) && Full(c) && After(c, e).1 == UseNative
    ensures var l := ListAfter(list, e).0; |l| == CAPACITY && l[0].id == e.id && l[CAPACITY - 1].id != e.id
  {
    hide Refines, After, ListAfter, Full, Victim;
    VictimIsLast(c, list);
    ListIsBounded(c, list);
    SameResolution(c, list, e);
    UsedLeads(list, e);
  }

  /**
   * In a full cache, after a hit or a name remembered, the next to be evicted is
   * the least recently used one if and only if the age counter did not wrap.
   */
  lemma VictimIsOldestIff(c: Cache, list: seq<Pair>, e: Event)
    requires |c.entries| == CAPACITY && Refines(c, list) && Full(c) && c.age <= MAX_AGE && After(c, e).1 == UseNative
    ensures var l := ListAfter(list, e).0;
            && |l| == CAPACITY
            && (Victim(After(c, e).0) == l[CAPACITY - 1].id <==> c.age < MAX_AGE)
  {
    hide After, ListAfter, Oldest, Refines, Victim;
    UsedIsFirst(c, list, e);
    if c.age < MAX_AGE {
      EventRefines(c, list, e);
      StampMoves(c, e);
      VictimIsLast(After(c, e).0, ListAfter(list, e).0);
    } else {
      WrappedIsVictim(c, list, e);
    }
  }

  lemma UsedSlotsHaveAges(c: Cache, list: seq<Pair>)
    requires |c.entries| == CAPACITY && Refines(c, list) && FirstUnused(c.entries, 0) == CAPACITY
    ensures forall s: nat :: s < CAPACITY ==> c.entries[s].used && c.entries[s].age > 0
  {
    var order :| Orders(c, order) && Listed(c, order) == list;
    forall s: nat | s < CAPACITY
      ensures c.entries[s].used && c.entries[s].age > 0
    {
      assert c.entries[s].used;
      var k :| 0 <= k < |order| && order[k] == s;
      assert InUse(c, order[k]);
    }
  }

  // ---------- A history that reaches the wrap ----------

  /** Sixteen different ids. */
  function Name(k: nat): (id: string)
    ensures |id| == k + 1
  {
    seq(k + 1, _ => 'a')
  }

  ghost function Filled(k: nat): (c: Cache)
    ensures |c.entries| == CAPACITY && c.age == k
    ensures forall i: nat :: i < CAPACITY ==> c.entries[i] == if i < k then Entry(true, i + 1, Name(i), "n") else EMPTY
  {
    Cache(seq(CAPACITY, i requires 0 <= i => if i < k then Entry(true, i + 1, Name(i), "n") else EMPTY), k)
  }

  ghost function Filling(k: nat): seq<Event> {
    if k == 0 then [] else Filling(k - 1) + [Complete(Name(k - 1), "n", 2)]
  }

  lemma FillsNext(k: nat)
    requires k < CAPACITY
    ensures Completed(Filled(k), Name(k), "n", 2) == (Filled(k + 1), UseNative, "n")
  {
    hide Find, FirstUnused, Name, Filled;
    var c := Filled(k);
    var found := Find(c.entries, Name(k), 0);
    assert !c.entries[k].used && forall i: nat :: i < k ==> |c.entries[i].id| < |Name(k)|;
    assert found == CAPACITY;
    assert FirstUnused(c.entries, 0) == k;
    assert Bounded(Name(k), APP_ID_MAX);
    assert Completed(c, Name(k), "n", 2).0.entries == Filled(k + 1).entries;
    assert c.age + 1 == NextAge(c.age);
  }

  lemma {:induction false} FillingFills(k: nat)
    requires k <= CAPACITY
    ensures Run(Filling(k)) == Filled(k) && Stamps(Filling(k)) == k
  {
    hide Run, Stamps, Completed, Begun, Filled, Fresh, Name, NextAge;
    if k == 0 {
      NothingIsFilled();
    } else {
      FillingFills(k - 1);
      FillsNext(k - 1);
      OneMore(Filling(k - 1), Complete(Name(k - 1), "n", 2));
    }
  }

  lemma NothingIsFilled()
    ensures Run([]) == Filled(0) && Stamps([]) == 0
  {
    assert Filled(0).entries == Fresh().entries;
  }

  /** Filling the cache, then hitting its first id n times. */
  ghost function Hitting(n: nat): seq<Event> {
    if n == 0 then Filling(CAPACITY) else Hitting(n - 1) + [Begin(Name(0), 2)]
  }

  /** A full cache whose first slot holds the first id. */
  ghost predicate Hit(c: Cache, age: nat)
    requires |c.entries| == CAPACITY
  {
    Full(c) && c.age == age && c.entries[0].id == Name(0) && c.entries[0].name == "n"
  }

  lemma HitsAgain(c: Cache, age: nat)
    requires |c.entries| == CAPACITY && Hit(c, age) && age < MAX_AGE
    ensures Begun(c, Name(0), 2).1 == UseNative && Hit(Begun(c, Name(0), 2).0, age + 1)
  {
    assert Find(c.entries, Name(0), 0) == 0;
  }

  lemma FilledIsHit()
    ensures Hit(Filled(CAPACITY), CAPACITY)
  {
    hide Filled;
  }

  lemma {:induction false} HittingAges(n: nat)
    requires CAPACITY + n <= MAX_AGE
    ensures Hit(Run(Hitting(n)), CAPACITY + n) && Stamps(Hitting(n)) == CAPACITY + n
  {
    hide Begun, Completed, Hit, Filling, Filled, Name, NextAge;
    if n == 0 {
      FillingFills(CAPACITY);
      FilledIsHit();
    } else {
      HittingAges(n - 1);
      HitsAgain(Run(Hitting(n - 1)), CAPACITY + n - 1);
      hide Run, Stamps;
      OneMore(Hitting(n - 1), Begin(Name(0), 2));
    }
  }

  /**
   * A history of 2^32 - 1 hits and names remembered reaches the last age in a
   * full cache; one more hit makes the app just looked up the next to be evicted.
   */
  lemma WrapIsReached()
    ensures var c := Run(Hitting(MAX_AGE - CAPACITY));
            && Full(c) && c.age == MAX_AGE
            && Begun(c, Name(0), 2).1 == UseNative && Victim(Begun(c, Name(0), 2).0) == Name(0)
  {
    var events := Hitting(MAX_AGE - CAPACITY);
    HittingAges(MAX_AGE - CAPACITY);
    RunsRefine(events);
    hide Run, RunList, Hitting, Stamps, Refines, Oldest, Victim;
    var c := Run(events);
    assert Find(c.entries, Name(0), 0) == 0;
    assert After(c, Begin(Name(0), 2)).1 == UseNative;
    WrappedIsVictim(c, RunList(events), Begin(Name(0), 2));
  }

  // ---------- The resolver ----------

  class Resolver {
    const entries: array<Entry>
    var age: nat

    ghost predicate Valid() {
      entries.Length == CAPACITY
    }

    ghost function View(): (c: Cache)
      requires Valid()
      reads this, entries
      ensures |c.entries| == CAPACITY
    {
      Cache(entries[..], age)
    }

    constructor ()
      ensures Valid() && fresh(entries) && Refines(View(), [])
    {
      entries := new Entry[CAPACITY](_ => EMPTY);
      age := 0;
      new;
      InitialRefines();
      assert entries[..] == seq(CAPACITY, _ => EMPTY);
    }

    method FindEntry(id: string) returns (slot: nat)
      requires Valid()
      ensures slot == Find(entries[..], id, 0)
    {
      slot := 0;
      while slot < CAPACITY && !(entries[slot].used && entries[slot].id == id)
        invariant slot <= CAPACITY && Find(entries[..], id, slot) == Find(entries[..], id, 0)
      {
        slot := slot + 1;
      }
    }

    method ReplacementEntry(id: string) returns (slot: nat)
      requires Valid()
      ensures slot == Replacement(entries[..], id)
    {
      slot := FindEntry(id);
      if slot < CAPACITY {
        return;
      }
      slot := 0;
      while slot < CAPACITY && entries[slot].used
        invariant slot <= CAPACITY && FirstUnused(entries[..], slot) == FirstUnused(entries[..], 0)
      {
        slot := slot + 1;
      }
      if slot < CAPACITY {
        return;
      }
      slot := 0;
      for index := 1 to CAPACITY
        invariant slot == Oldest(entries[..], index)
      {
        if entries[index].age < entries[slot].age {
          slot := index;
        }
      }
    }

    method Begin(id: string, room: nat) returns (resolution: Resolution, output: string)
      requires Valid()
      modifies this`age, entries
      ensures (View(), resolution, output) == Begun(old(View()), id, room)
    {
      output := "";
      if room == 0 || !Bounded(id, APP_ID_MAX) {
        return UseFallback, "";
      }
      var slot := FindEntry(id);
      if slot == CAPACITY {
        return RequestNative, "";
      }
      if |entries[slot].name| >= room {
        return UseFallback, "";
      }
      age := NextAge(age);
      output := entries[slot].name;
      entries[slot] := entries[slot].(age := age);
      return UseNative, output;
    }

    method Complete(id: string, name: string, room: nat) returns (resolution: Resolution, output: string)
      requires Valid()
      modifies this`age, entries
      ensures (View(), resolution, output) == Completed(old(View()), id, name, room)
    {
      if room == 0 || !Bounded(id, APP_ID_MAX) || !Bounded(name, APP_NAME_MAX) || |name| >= room {
        return UseFallback, "";
      }
      var slot := ReplacementEntry(id);
      age := NextAge(age);
      entries[slot] := Entry(true, age, id, name);
      return UseNative, name;
    }
  }
}
