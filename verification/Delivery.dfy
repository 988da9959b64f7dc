/** The Home Assistant side: validation of notification data and delivery to listeners. */
module Delivery {

  import opened Dedupe
  import opened Wrappers

  const WINDOW_SIZE: nat := 128
  const HA_ECHO_APP_ID: string := "io.robbie.HomeAssistant"

  /** A JSON value, as far as validation looks at it. */
  datatype Value = Text(text: string) | Bool(value: bool) | Other

  type Data = map<string, Value>

  // ---------- The window ----------

  /** The ids a window has taken in, given one more id: those in the window are skipped. */
  function TakenIn(history: seq<string>, limit: nat, id: string): seq<string> {
    if id in LastOf(history, limit) then history else history + [id]
  }

  /** Any limit + 1 consecutive ids are distinct. */
  ghost predicate Distinct(history: seq<string>, limit: nat) {
    Separate(Log(history, []), limit)
  }

  lemma TakingInKeepsDistinct(history: seq<string>, limit: nat, id: string)
    requires Distinct(history, limit)
    ensures Distinct(TakenIn(history, limit, id), limit)
  {
    hide Separate;
    var l := Log(history, []);
    assert Window(l, limit) == LastOf(history, limit);
    if id !in LastOf(history, limit) {
      TakingSeparates(l, limit, id);
      assert Taken(l, id) == Log(history + [id], []);
    }
  }

  class RelayIdWindow {
    const limit: nat
    var queue: seq<string>
    var ids: set<string>
    /** Every id taken in so far. */
    ghost var history: seq<string>

    ghost predicate Valid()
      reads this
    {
      && limit > 0
      && queue == LastOf(history, limit)
      && ids == (set id | id in queue)
      && (forall i, j :: 0 <= i < j < |queue| ==> queue[i] != queue[j])
      && Distinct(history, limit)
    }

    /** None when the limit is not positive. */
    static method Create(limit: int) returns (window: RelayIdWindow?)
      ensures window == null <==> limit <= 0
      ensures window != null ==> fresh(window) && window.Valid() && window.history == [] && window.limit == limit
    {
      if limit <= 0 {
        return null;
      }
      window := new RelayIdWindow(limit);
    }

    constructor (limit: nat)
      requires limit > 0
      ensures Valid() && history == [] && this.limit == limit
    {
      this.limit := limit;
      queue, ids, history := [], {}, [];
      new;
      EmptyIsSeparate(limit);
    }

    method Contains(id: string) returns (found: bool)
      requires Valid()
      ensures found <==> id in LastOf(history, limit)
    {
      return id in ids;
    }

    method Add(id: string)
      requires Valid()
      modifies this
      ensures Valid() && history == TakenIn(old(history), limit, id)
    {
      hide Distinct;
      TakingInKeepsDistinct(history, limit, id);
      if id in ids {
        return;
      }
      ghost var before := queue;
      queue := queue + [id];
      ids := ids + {id};
      history := history + [id];
      if |queue| > limit {
        var oldest := queue[0];
        queue := queue[1..];
        ids := ids - {oldest};
      }
      assert forall x :: x in before + [id] <==> x in before || x == id;
    }
  }

  // ---------- Validation ----------

  /** The white space a stripped string loses. */
  predicate Space(c: char) {
    || '\t' <= c <= '\r' || '\U{1c}' <= c <= ' ' || c == '\U{85}' || c == '\U{a0}' || c == '\U{1680}'
    || '\U{2000}' <= c <= '\U{200a}' || c == '\U{2028}' || c == '\U{2029}' || c == '\U{202f}' || c == '\U{205f}' || c == '\U{3000}'
  }

  predicate Blank(s: string) {
    forall c <- s :: Space(c)
  }

  predicate Is(data: Data, key: string, value: Value) {
    key in data && data[key] == value
  }

  function RelayId(data: Data): Option<string> {
    if "relay_id" in data && data["relay_id"].Text? then Some(data["relay_id"].text) else None
  }

  /** Everything but the window: a complete, new notification of another app with an id. */
  predicate Relevant(data: Data) {
    && RelayId(data).Some? && !Blank(RelayId(data).value)
    && Is(data, "complete", Bool(true)) && !Is(data, "pre_existing", Bool(true))
    && !Is(data, "event", Text("removed")) && !Is(data, "app_id", Text(HA_ECHO_APP_ID))
  }

  /** Data is accepted if it is relevant and its id is not in the window. */
  predicate Accepts(history: seq<string>, limit: nat, data: Option<Data>) {
    data.Some? && Relevant(data.value) && RelayId(data.value).value !in LastOf(history, limit)
  }

  /** The ids seen once data was offered. */
  function SeenAfter(history: seq<string>, limit: nat, data: Option<Data>): seq<string> {
    if Accepts(history, limit, data) then history + [RelayId(data.value).value] else history
  }

  /** Data that is not a mapping is None here, as it is rejected like malformed data. */
  method ParseNotificationData(data: Option<Data>, seen: RelayIdWindow) returns (r: Option<Data>)
    requires seen.Valid()
    modifies seen
    ensures seen.Valid()
    ensures r == if Accepts(old(seen.history), seen.limit, data) then data else None
    ensures r.Some? <==>
              && data.Some? && RelayId(data.value).Some? && RelayId(data.value).value !in LastOf(old(seen.history), seen.limit)
              && (exists c <- RelayId(data.value).value :: !Space(c))
              && Is(data.value, "complete", Bool(true)) && !Is(data.value, "pre_existing", Bool(true))
              && !Is(data.value, "event", Text("removed")) && !Is(data.value, "app_id", Text("io.robbie.HomeAssistant"))
    ensures seen.history == SeenAfter(old(seen.history), seen.limit, data)
  {
    if data.None? {
      return None;
    }
    var d := data.value;
    if RelayId(d).None? || Blank(RelayId(d).value) {
      return None;
    }
    if !Is(d, "complete", Bool(true)) || Is(d, "pre_existing", Bool(true)) {
      return None;
    }
    if Is(d, "event", Text("removed")) || Is(d, "app_id", Text(HA_ECHO_APP_ID)) {
      return None;
    }
    var duplicate := seen.Contains(RelayId(d).value);
    if duplicate {
      return None;
    }
    seen.Add(RelayId(d).value);
    return data;
  }

  // ---------- Every sequence of offers ----------

  /** The ids accepted of whatever is offered to an empty window, in order. */
  ghost function Seen(offers: seq<Option<Data>>, limit: nat): seq<string> {
    if offers == [] then [] else SeenAfter(Seen(offers[..|offers| - 1], limit), limit, offers[|offers| - 1])
  }

  lemma {:induction false} SeenIsDistinct(offers: seq<Option<Data>>, limit: nat)
    ensures Distinct(Seen(offers, limit), limit)
    decreases |offers|
  {
    hide Distinct;
    if offers == [] {
      assert Distinct([], limit) by { EmptyIsDistinct(limit); }
    } else {
      var before, data := Seen(offers[..|offers| - 1], limit), offers[|offers| - 1];
      SeenIsDistinct(offers[..|offers| - 1], limit);
      if Accepts(before, limit, data) {
        TakingInKeepsDistinct(before, limit, RelayId(data.value).value);
      }
    }
  }

  lemma EmptyIsDistinct(limit: nat)
    ensures Distinct([], limit)
  {
  }

  /** Whatever is offered, any limit + 1 consecutive accepted ids are distinct. */
  lemma {:induction false} AcceptedIdsDiffer(offers: seq<Option<Data>>, limit: nat, i: nat, j: nat)
    requires i < j < |Seen(offers, limit)| && j <= i + limit
    ensures Seen(offers, limit)[i] != Seen(offers, limit)[j]
  {
    hide Seen;
    SeenIsDistinct(offers, limit);
    var l := Log(Seen(offers, limit), []);
    assert !CutBetween(l, i, j);
    assert l.ids[i] != l.ids[j];
  }

  lemma {:induction false} SeenGrows(before: seq<Option<Data>>, more: seq<Option<Data>>, limit: nat)
    ensures Seen(before, limit) <= Seen(before + more, limit)
    decreases |more|
  {
    hide Relevant;
    if more == [] {
      assert before + more == before;
    } else {
      assert (before + more)[..|before + more| - 1] == before + more[..|more| - 1];
      SeenGrows(before, more[..|more| - 1], limit);
    }
  }

  /** Accepted data offered again is accepted again if and only if at least limit others were accepted since. */
  lemma AcceptedAgainIff(before: seq<Option<Data>>, between: seq<Option<Data>>, data: Option<Data>, limit: nat)
    requires Accepts(Seen(before, limit), limit, data)
    requires var seen := Seen(before + [data] + between, limit);
             forall k :: |Seen(before, limit)| < k < |seen| ==> seen[k] != RelayId(data.value).value
    ensures var seen := Seen(before + [data] + between, limit);
            Accepts(seen, limit, data) <==> |seen| > |Seen(before, limit)| + limit
  {
    var first, id := |Seen(before, limit)|, RelayId(data.value).value;
    assert (before + [data])[..|before|] == before;
    assert Seen(before + [data], limit) == Seen(before, limit) + [id];
    SeenGrows(before + [data], between, limit);
    hide Seen, Relevant;
    var seen := Seen(before + [data] + between, limit);
    assert seen[first] == id;
    var window := LastOf(seen, limit);
    if |seen| <= first + limit {
      assert window[|window| - (|seen| - first)] == id;
    } else {
      assert forall k :: 0 <= k < |window| ==> window[k] == seen[|seen| - |window| + k];
    }
  }

  // ---------- Delivery ----------

  datatype Sent = Sent(listener: nat, data: Data)

  datatype State = State(
    listeners: seq<nat>,
    replayListeners: seq<nat>,
    pending: seq<Data>,
    latest: Option<Data>,
    sent: seq<Sent>)

  const IDLE: State := State([], [], [], None, [])

  function ToAll(listeners: seq<nat>, data: Data): seq<Sent> {
    seq(|listeners|, i requires 0 <= i < |listeners| => Sent(listeners[i], data))
  }

  function AllTo(listener: nat, pending: seq<Data>): seq<Sent> {
    seq(|pending|, i requires 0 <= i < |pending| => Sent(listener, pending[i]))
  }

  /** A bounded queue: appending to a full one drops its oldest. */
  function Queued(pending: seq<Data>, data: Data): seq<Data> {
    LastOf(pending + [data], WINDOW_SIZE)
  }

  /** An accepted notification; a retained one only fills an empty latest notification. */
  function Handled(s: State, data: Data, retained: bool): State {
    if retained then (if s.latest.None? then s.(latest := Some(data)) else s)
    else
      s.(latest := Some(data),
      pending := if s.replayListeners == [] then Queued(s.pending, data) else s.pending,
      sent := s.sent + ToAll(s.listeners, data))
  }

  function Added(s: State, listener: nat, replay: bool): State {
    var s1 := s.(listeners := s.listeners + [listener]);
    if !replay then s1
    else
      s1.(replayListeners := s.replayListeners + [listener], sent := s.sent + AllTo(listener, s.pending), pending := [])
  }

  function WithoutFirst(s: seq<nat>, x: nat): seq<nat> {
    if s == [] then [] else if s[0] == x then s[1..] else [s[0]] + WithoutFirst(s[1..], x)
  }

  function Removed(s: State, listener: nat): State {
    s.(listeners := WithoutFirst(s.listeners, listener), replayListeners := WithoutFirst(s.replayListeners, listener))
  }

  function Stopped(s: State): State {
    IDLE.(sent := s.sent)
  }

  datatype Event =
    | Accept(data: Data, retained: bool)
    | Add(listener: nat, replay: bool)
    | Remove(listener: nat)
    | Stop

  function After(s: State, e: Event): State {
    match e
    case Accept(data, retained) => Handled(s, data, retained)
    case Add(listener, replay) => Added(s, listener, replay)
    case Remove(listener) => Removed(s, listener)
    case Stop => Stopped(s)
  }

  ghost function Run(events: seq<Event>): State {
    if events == [] then IDLE else After(Run(events[..|events| - 1]), events[|events| - 1])
  }

  /** What one listener received, in order. */
  ghost function Received(sent: seq<Sent>, listener: nat): seq<Data> {
    if sent == [] then []
    else
      var last := sent[|sent| - 1];
      Received(sent[..|sent| - 1], listener) + (if last.listener == listener then [last.data] else [])
  }

  /** The accepted live notifications of a history, in order. */
  ghost function Live(events: seq<Event>): seq<Data> {
    if events == [] then []
    else
      var last := events[|events| - 1];
      Live(events[..|events| - 1]) + (if last.Accept? && !last.retained then [last.data] else [])
  }

  /**
   * For every live notification that is no longer pending, whether it was
   * delivered: it was not if it fell out of a full queue or the runtime stopped.
   */
  ghost function Kept(events: seq<Event>): seq<bool> {
    if events == [] then []
    else Kept(events[..|events| - 1]) + Fates(Run(events[..|events| - 1]), events[|events| - 1])
  }

  ghost function Repeated(value: bool, n: nat): (s: seq<bool>)
    ensures |s| == n
  {
    seq(n, _ => value)
  }

  ghost function Selected(s: seq<Data>, kept: seq<bool>): seq<Data>
    requires |s| == |kept|
    decreases |s|
  {
    if s == [] then []
    else
      var n := |s| - 1;
      Selected(s[..n], kept[..n]) + (if kept[n] then [s[n]] else [])
  }

  /** One listener asks for replays; it is added while absent, and the others do not ask for replays. */
  ghost predicate SingleReplay(events: seq<Event>, listener: nat) {
    forall k :: 0 <= k < |events| && events[k].Add? ==>
      if events[k].replay then events[k].listener == listener && listener !in Run(events[..k]).listeners
      else events[k].listener != listener
  }

  /** How often a listener is in a list. */
  ghost function Times(s: seq<nat>, x: nat): nat {
    if s == [] then 0 else Times(s[1..], x) + (if s[0] == x then 1 else 0)
  }

  /** Whatever is no longer pending was delivered in order, unless it was dropped. */
  ghost predicate Sound(s: State, listener: nat, live: seq<Data>, kept: seq<bool>) {
    && |s.pending| <= WINDOW_SIZE
    && (s.replayListeners == [] || (s.replayListeners == [listener] && s.pending == []))
    && Times(s.listeners, listener) == |s.replayListeners|
    && |kept| + |s.pending| == |live| && s.pending == live[|kept|..]
    && Received(s.sent, listener) == Selected(live[..|kept|], kept)
  }

  // ---------- Lists ----------

  lemma {:induction false} ReceivedAppend(a: seq<Sent>, b: seq<Sent>, listener: nat)
    ensures Received(a + b, listener) == Received(a, listener) + Received(b, listener)
    decreases |b|
  {
    if b == [] {
      assert a + b == a;
    } else {
      assert (a + b)[..|a + b| - 1] == a + b[..|b| - 1];
      ReceivedAppend(a, b[..|b| - 1], listener);
    }
  }

  lemma {:induction false} ReceivedToAll(listeners: seq<nat>, data: Data, listener: nat)
    ensures |Received(ToAll(listeners, data), listener)| == Times(listeners, listener)
    ensures forall d <- Received(ToAll(listeners, data), listener) :: d == data
  {
    if listeners != [] {
      assert ToAll(listeners, data) == [Sent(listeners[0], data)] + ToAll(listeners[1..], data);
      ReceivedAppend([Sent(listeners[0], data)], ToAll(listeners[1..], data), listener);
      ReceivedToAll(listeners[1..], data, listener);
      ReceivedOne(Sent(listeners[0], data), listener);
    }
  }

  lemma ReceivedOne(sent: Sent, listener: nat)
    ensures Received([sent], listener) == if sent.listener == listener then [sent.data] else []
  {
    assert [sent][..0] == [];
  }

  lemma {:induction false} ReceivedAllTo(listener: nat, pending: seq<Data>)
    ensures Received(AllTo(listener, pending), listener) == pending
    decreases |pending|
  {
    if pending != [] {
      var n := |pending| - 1;
      assert AllTo(listener, pending)[..n] == AllTo(listener, pending[..n]);
      ReceivedAllTo(listener, pending[..n]);
      assert pending == pending[..n] + [pending[n]];
    }
  }

  lemma {:induction false} SelectedAppend(s: seq<Data>, t: seq<Data>, k: seq<bool>, m: seq<bool>)
    requires |s| == |k| && |t| == |m|
    ensures Selected(s + t, k + m) == Selected(s, k) + Selected(t, m)
    decreases |t|
  {
    if t == [] {
      assert s + t == s && k + m == k;
    } else {
      var n := |t| - 1;
      assert (s + t)[..|s| + n] == s + t[..n] && (k + m)[..|s| + n] == k + m[..n];
      SelectedAppend(s, t[..n], k, m[..n]);
    }
  }

  lemma {:induction false} SelectedRepeated(s: seq<Data>, value: bool)
    ensures Selected(s, Repeated(value, |s|)) == if value then s else []
    decreases |s|
  {
    if s != [] {
      var n := |s| - 1;
      assert Repeated(value, |s|)[..n] == Repeated(value, n);
      SelectedRepeated(s[..n], value);
      assert s == s[..n] + [s[n]];
    }
  }

  lemma {:induction false} TimesAppend(s: seq<nat>, y: nat, x: nat)
    ensures Times(s + [y], x) == Times(s, x) + (if x == y then 1 else 0)
  {
    if s == [] {
      assert s + [y] == [y] && [y][1..] == [];
    } else {
      assert (s + [y])[1..] == s[1..] + [y];
      TimesAppend(s[1..], y, x);
    }
  }

  lemma {:induction false} TimesWithoutFirst(s: seq<nat>, y: nat, x: nat)
    ensures Times(WithoutFirst(s, y), x) == if x == y && Times(s, x) > 0 then Times(s, x) - 1 else Times(s, x)
  {
    if s != [] && s[0] != y {
      TimesWithoutFirst(s[1..], y, x);
      assert ([s[0]] + WithoutFirst(s[1..], y))[1..] == WithoutFirst(s[1..], y);
    }
  }

  lemma {:induction false} TimesOfAbsent(s: seq<nat>, x: nat)
    ensures Times(s, x) == 0 <==> x !in s
  {
    if s != [] {
      TimesOfAbsent(s[1..], x);
    }
  }

  // ---------- Exactly once, in order ----------

  /** The notifications that left the pending queue for good, and their fates. */
  lemma Settles(live: seq<Data>, kept: seq<bool>, gone: seq<Data>, value: bool, received: seq<Data>)
    requires |kept| + |gone| <= |live| && live[|kept|..|kept| + |gone|] == gone
    requires received == Selected(live[..|kept|], kept)
    ensures received + (if value then gone else []) == Selected(live[..|kept| + |gone|], kept + Repeated(value, |gone|))
  {
    SelectedAppend(live[..|kept|], gone, kept, Repeated(value, |gone|));
    SelectedRepeated(gone, value);
    assert live[..|kept| + |gone|] == live[..|kept|] + gone;
  }

  lemma DeliveredIsSound(s: State, listener: nat, live: seq<Data>, kept: seq<bool>, data: Data)
    requires Sound(s, listener, live, kept) && s.replayListeners != []
    ensures Sound(Handled(s, data, false), listener, live + [data], kept + [true])
  {
    ReceivedAppend(s.sent, ToAll(s.listeners, data), listener);
    ReceivedToAll(s.listeners, data, listener);
    var received := Received(ToAll(s.listeners, data), listener);
    assert received[0] in received;
    assert received == [data];
    var all := live + [data];
    assert all[..|kept|] == live[..|kept|] == live;
    Settles(all, kept, [data], true, Received(s.sent, listener));
    assert Repeated(true, 1) == [true];
  }

  lemma QueuedIsSound(s: State, listener: nat, live: seq<Data>, kept: seq<bool>, data: Data)
    requires Sound(s, listener, live, kept) && s.replayListeners == []
    ensures Sound(Handled(s, data, false), listener, live + [data], kept + if |s.pending| == WINDOW_SIZE then [false] else [])
  {
    ReceivedAppend(s.sent, ToAll(s.listeners, data), listener);
    ReceivedToAll(s.listeners, data, listener);
    assert Received(ToAll(s.listeners, data), listener) == [];
    var all := live + [data];
    assert all[..|kept|] == live[..|kept|];
    if |s.pending| == WINDOW_SIZE {
      Settles(all, kept, [s.pending[0]], false, Received(s.sent, listener));
      assert Repeated(false, 1) == [false];
      assert (s.pending + [data])[1..] == all[|kept| + 1..];
    } else {
      assert kept + [] == kept;
      assert s.pending + [data] == all[|kept|..];
    }
  }

  lemma ReplayIsSound(s: State, listener: nat, live: seq<Data>, kept: seq<bool>)
    requires Sound(s, listener, live, kept) && listener !in s.listeners
    ensures Sound(Added(s, listener, true), listener, live, kept + Repeated(true, |s.pending|))
  {
    TimesOfAbsent(s.listeners, listener);
    TimesAppend(s.listeners, listener, listener);
    ReceivedAppend(s.sent, AllTo(listener, s.pending), listener);
    ReceivedAllTo(listener, s.pending);
    Settles(live, kept, s.pending, true, Received(s.sent, listener));
  }

  lemma StopIsSound(s: State, listener: nat, live: seq<Data>, kept: seq<bool>)
    requires Sound(s, listener, live, kept)
    ensures Sound(Stopped(s), listener, live, kept + Repeated(false, |s.pending|))
  {
    Settles(live, kept, s.pending, false, Received(s.sent, listener));
  }

  lemma ListenersAreSound(s: State, listener: nat, live: seq<Data>, kept: seq<bool>, other: nat)
    requires Sound(s, listener, live, kept)
    ensures other != listener ==> Sound(Added(s, other, false), listener, live, kept)
    ensures Sound(Removed(s, other), listener, live, kept)
  {
    TimesAppend(s.listeners, other, listener);
    TimesWithoutFirst(s.listeners, other, listener);
    if s.replayListeners != [] {
      assert s.replayListeners[1..] == [];
      assert WithoutFirst(s.replayListeners, other) == if other == listener then [] else [listener];
    }
  }

  lemma SingleReplayBefore(events: seq<Event>, listener: nat)
    requires SingleReplay(events, listener) && events != []
    ensures SingleReplay(events[..|events| - 1], listener)
    ensures var e := events[|events| - 1];
            e.Add? ==> if e.replay then e.listener == listener && listener !in Run(events[..|events| - 1]).listeners
                       else e.listener != listener
  {
    hide Run;
    var before := events[..|events| - 1];
    assert forall k :: 0 <= k < |before| ==> before[..k] == events[..k] && before[k] == events[k];
    assert events[|before|] == events[|events| - 1] && events[..|before|] == before;
  }

  /**
   * Over every history with a single replay listener, which may come and go:
   * the live notifications that are not pending reached it exactly once and in
   * order of arrival, pending ones first, except those marked as dropped.
   */
  lemma {:induction false} DeliveredExactlyOnce(events: seq<Event>, listener: nat)
    requires SingleReplay(events, listener)
    ensures Sound(Run(events), listener, Live(events), Kept(events))
    decreases |events|
  {
    hide Sound, After, SingleReplay;
    if events == [] {
      IdleIsSound(listener);
    } else {
      var before, e := events[..|events| - 1], events[|events| - 1];
      SingleReplayBefore(events, listener);
      DeliveredExactlyOnce(before, listener);
      EventIsSound(Run(before), listener, Live(before), Kept(before), e);
    }
  }

  lemma IdleIsSound(listener: nat)
    ensures Sound(IDLE, listener, [], [])
  {
  }

  /** What one event adds to the fates of live notifications. */
  ghost function Fates(s: State, e: Event): (r: seq<bool>)
    ensures false in r ==> e == Stop || (e.Accept? && s.replayListeners == [] && |s.pending| == 128)
  {
    match e
    case Accept(_, retained) =>
      if retained then []
      else if s.replayListeners != [] then [true]
      else if |s.pending| == WINDOW_SIZE then [false]
      else []
    case Add(_, replay) => if replay then Repeated(true, |s.pending|) else []
    case Remove(_) => []
    case Stop => Repeated(false, |s.pending|)
  }

  lemma EventIsSound(s: State, listener: nat, live: seq<Data>, kept: seq<bool>, e: Event)
    requires Sound(s, listener, live, kept)
    requires e.Add? ==> if e.replay then e.listener == listener && listener !in s.listeners else e.listener != listener
    ensures Sound(After(s, e), listener, live + (if e.Accept? && !e.retained then [e.data] else []), kept + Fates(s, e))
  {
    hide Handled, Added, Removed, Stopped;
    assert kept + [] == kept && live + [] == live;
    match e
    case Accept(data, retained) =>
      if retained {
        RetainedIsSound(s, listener, live, kept, data);
      } else if s.replayListeners != [] {
        DeliveredIsSound(s, listener, live, kept, data);
      } else {
        QueuedIsSound(s, listener, live, kept, data);
      }
    case Add(other, replay) =>
      if replay {
        ReplayIsSound(s, listener, live, kept);
      } else {
        ListenersAreSound(s, listener, live, kept, other);
      }
    case Remove(other) => ListenersAreSound(s, listener, live, kept, other);
    case Stop => StopIsSound(s, listener, live, kept);
  }

  lemma RetainedIsSound(s: State, listener: nat, live: seq<Data>, kept: seq<bool>, data: Data)
    requires Sound(s, listener, live, kept)
    ensures Sound(Handled(s, data, true), listener, live, kept)
  {
  }

  // ---------- Every other listener ----------

  /** How often a listener is registered, told from the events. */
  ghost function Registered(events: seq<Event>, listener: nat): nat {
    if events == [] then 0
    else
      var n, e := Registered(events[..|events| - 1], listener), events[|events| - 1];
      match e
      case Add(other, _) => if other == listener then n + 1 else n
      case Remove(other) => if other == listener && n > 0 then n - 1 else n
      case Stop => 0
      case Accept(_, _) => n
  }

  ghost function Copies(data: Data, n: nat): seq<Data> {
    if n == 0 then [] else Copies(data, n - 1) + [data]
  }

  /** The live notifications accepted while a listener was registered, in order. */
  ghost function Heard(events: seq<Event>, listener: nat): seq<Data> {
    if events == [] then []
    else
      var before, e := events[..|events| - 1], events[|events| - 1];
      Heard(before, listener) + (if e.Accept? && !e.retained then Copies(e.data, Registered(before, listener)) else [])
  }

  lemma {:induction false} CopiesOf(s: seq<Data>, data: Data)
    requires forall d <- s :: d == data
    ensures s == Copies(data, |s|)
  {
    if s != [] {
      var front := s[..|s| - 1];
      assert s == front + [s[|s| - 1]] && s[|s| - 1] in s && forall d <- front :: d in s;
      CopiesOf(front, data);
    }
  }

  lemma HearingStep(s: State, e: Event, listener: nat, n: nat, heard: seq<Data>)
    requires Times(s.listeners, listener) == n && Received(s.sent, listener) == heard
    requires e.Add? && e.replay ==> e.listener != listener
    ensures Received(After(s, e).sent, listener)
         == heard + if e.Accept? && !e.retained then Copies(e.data, n) else []
    ensures Times(After(s, e).listeners, listener)
         == match e
            case Add(other, _) => if other == listener then n + 1 else n
            case Remove(other) => if other == listener && n > 0 then n - 1 else n
            case Stop => 0
            case Accept(_, _) => n
  {
    hide Received, Copies;
    match e
    case Accept(data, retained) =>
      ReceivedAppend(s.sent, ToAll(s.listeners, data), listener);
      ReceivedToAll(s.listeners, data, listener);
      CopiesOf(Received(ToAll(s.listeners, data), listener), data);
    case Add(other, replay) =>
      TimesAppend(s.listeners, other, listener);
      if replay {
        ReceivedAppend(s.sent, AllTo(other, s.pending), listener);
        OthersReceiveNothing(other, s.pending, listener);
      }
    case Remove(other) => TimesWithoutFirst(s.listeners, other, listener);
    case Stop =>
  }

  lemma {:induction false} OthersReceiveNothing(other: nat, pending: seq<Data>, listener: nat)
    requires other != listener
    ensures Received(AllTo(other, pending), listener) == []
    decreases |pending|
  {
    if pending != [] {
      var n := |pending| - 1;
      assert AllTo(other, pending)[..n] == AllTo(other, pending[..n]);
      OthersReceiveNothing(other, pending[..n], listener);
    }
  }

  /**
   * Over every history, a listener that asks for no replay receives each live
   * notification accepted while it is registered, once per registration and in
   * order of arrival, and nothing else.
   */
  lemma {:induction false} HeardWhileRegistered(events: seq<Event>, listener: nat)
    requires forall e <- events :: e.Add? && e.replay ==> e.listener != listener
    ensures Received(Run(events).sent, listener) == Heard(events, listener)
    ensures Times(Run(events).listeners, listener) == Registered(events, listener)
    decreases |events|
  {
    hide After, Received, Times, Copies;
    if events == [] {
      NothingHeard(listener);
    } else {
      var before, e := events[..|events| - 1], events[|events| - 1];
      assert e in events && forall b <- before :: b in events;
      HeardWhileRegistered(before, listener);
      HearingStep(Run(before), e, listener, Registered(before, listener), Heard(before, listener));
    }
  }

  lemma NothingHeard(listener: nat)
    ensures Received([], listener) == [] && Times([], listener) == 0
  {
  }

  /** The latest notification, told from the events: the last live one since a stop, else the first retained one. */
  ghost function Latest(events: seq<Event>): Option<Data> {
    if events == [] then None
    else
      var latest, e := Latest(events[..|events| - 1]), events[|events| - 1];
      if e == Stop then None
      else if e.Accept? && (!e.retained || latest == None) then Some(e.data)
      else latest
  }

  lemma {:induction false} LatestIsLast(events: seq<Event>)
    ensures Run(events).latest == Latest(events)
    decreases |events|
  {
    if events != [] {
      LatestIsLast(events[..|events| - 1]);
    }
  }

  // ---------- The runtime ----------

  class Runtime {
    const seen: RelayIdWindow
    var listeners: seq<nat>
    var replayListeners: seq<nat>
    var pending: seq<Data>
    var latest: Option<Data>
    ghost var sent: seq<Sent>

    ghost function View(): State
      reads this
    {
      State(listeners, replayListeners, pending, latest, sent)
    }

    constructor ()
      ensures View() == IDLE && fresh(seen) && seen.Valid() && seen.history == [] && seen.limit == 128
    {
      seen := new RelayIdWindow(WINDOW_SIZE);
      listeners, replayListeners, pending, latest, sent := [], [], [], None, [];
    }

    /** A saved notification fills the window and the latest notification, but is not delivered. */
    method RestoreNotification(saved: Option<Data>) returns (ok: bool)
      requires seen.Valid()
      modifies this`latest, seen
      ensures seen.Valid()
      ensures View() == if ok then old(View()).(latest := saved) else old(View())
      ensures ok <==> Accepts(old(seen.history), seen.limit, saved)
      ensures seen.history == SeenAfter(old(seen.history), seen.limit, saved)
    {
      var restored := ParseNotificationData(saved, seen);
      if restored.None? {
        return false;
      }
      latest := restored;
      return true;
    }

    method HandleNotification(data: Option<Data>, retained: bool) returns (accepted: bool)
      requires seen.Valid()
      modifies this, seen
      ensures seen.Valid()
      ensures accepted <==> Accepts(old(seen.history), seen.limit, data)
      ensures seen.history == SeenAfter(old(seen.history), seen.limit, data)
      ensures View() == if accepted then After(old(View()), Accept(data.value, retained)) else old(View())
    {
      hide Relevant, RelayIdWindow.Valid, SeenAfter;
      var notification := ParseNotificationData(data, seen);
      if notification.None? {
        return false;
      }
      if retained {
        if latest.None? {
          latest := notification;
        }
        return true;
      }
      latest := notification;
      if replayListeners == [] {
        pending := pending + [notification.value];
        if |pending| > WINDOW_SIZE {
          pending := pending[|pending| - WINDOW_SIZE..];
        }
      }
      ghost var before := sent;
      for i := 0 to |listeners|
        invariant listeners == old(listeners) && sent == before + ToAll(listeners, notification.value)[..i]
        invariant replayListeners == old(replayListeners) && latest == notification
        invariant pending == if replayListeners == [] then Queued(old(pending), notification.value) else old(pending)
        invariant seen.Valid() && seen.history == SeenAfter(old(seen.history), seen.limit, data)
      {
        sent := sent + [Sent(listeners[i], notification.value)];
      }
      assert ToAll(listeners, notification.value)[..|listeners|] == ToAll(listeners, notification.value);
      return true;
    }

    method AddNotificationListener(listener: nat, replay: bool)
      modifies this`listeners, this`replayListeners, this`pending, this`sent
      ensures View() == After(old(View()), Add(listener, replay))
    {
      listeners := listeners + [listener];
      if replay {
        replayListeners := replayListeners + [listener];
        ghost var total := sent + AllTo(listener, pending);
        while pending != []
          invariant sent + AllTo(listener, pending) == total
          invariant listeners == old(listeners) + [listener] && replayListeners == old(replayListeners) + [listener]
          decreases |pending|
        {
          assert AllTo(listener, pending) == [Sent(listener, pending[0])] + AllTo(listener, pending[1..]);
          sent := sent + [Sent(listener, pending[0])];
          pending := pending[1..];
        }
        assert sent + AllTo(listener, []) == sent;
      }
    }

    method RemoveListener(listener: nat)
      modifies this`listeners, this`replayListeners
      ensures View() == After(old(View()), Remove(listener))
    {
      listeners := WithoutFirst(listeners, listener);
      replayListeners := WithoutFirst(replayListeners, listener);
    }

    method Stop()
      modifies this`listeners, this`replayListeners, this`pending, this`latest
      ensures View() == After(old(View()), Event.Stop)
    {
      listeners, replayListeners, pending, latest := [], [], [], None;
    }
  }
}
