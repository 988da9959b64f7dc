/** The worker of the ANCS client: the two-stage request for one notification. */
module ClientWorker {

  // A request asks for the notification's attributes, then for the name of its
  // app, with retry, timeout and cancellation. A ghost record of every request
  // that left the queue says what became of it.

  import opened RequestQueue
  import opened Wrappers
  import ClientSession

  const REQUEST_TIMEOUT_MS: int := 3000
  const DUPLICATE_WINDOW_MS: int := 500
  const REMOVED: int := 2

  datatype Kind = NotificationAttributes | AppAttributes

  /**
   * How writing a request to the Control Point can end: it cannot be encoded,
   * the session is not valid, the stack refuses it (an invalid-state error
   * counts as an invalid session), or it is sent.
   */
  datatype Outcome = Unencodable | NotValid | Refused(invalidState: bool) | Sent

  datatype ParserResult = More | Complete | Error

  /** What the worker observes while it handles one thing. */
  datatype Env = Env(ready: bool, first: Outcome, second: Outcome, now: int)

  /** What happened to one request since it left the queue. */
  datatype Record = Record(writes: nat, appWrites: nat, parsed: bool, canceled: bool, published: nat, failed: nat)

  const BLANK: Record := Record(0, 0, false, false, 0, 0)

  datatype Session = Session(
    active: bool,
    canceled: bool,
    kind: Kind,
    attempt: nat,
    deadline: int,
    event: Event,
    last: Option<Event>,
    lastMs: int,
    taken: nat,
    record: Record,
    past: seq<Record>,
    recoveries: nat)

  // ---------- What each operation does ----------

  function Closed(s: Session): Session {
    s.(active := false, canceled := false, past := s.past + [s.record])
  }

  function Published(s: Session): Session {
    Closed(s.(record := s.record.(published := s.record.published + 1)))
  }

  function Failed(s: Session): Session {
    Closed(s.(record := s.record.(failed := s.record.failed + 1)))
  }

  function Wrote(s: Session, outcome: Outcome, now: int): Session {
    if outcome.Unencodable? || outcome.NotValid? then s
    else
      s.(deadline := if outcome.Sent? then now + REQUEST_TIMEOUT_MS else s.deadline,
      record := if s.kind == AppAttributes then s.record.(appWrites := s.record.appWrites + 1)
                else s.record.(writes := s.record.writes + 1))
  }

  predicate SessionGone(outcome: Outcome) {
    outcome.NotValid? || (outcome.Refused? && outcome.invalidState)
  }

  /** The data stream is recovered: the session is no longer ready, and an open link is disconnected. */
  function Recovering(s: Session): Session {
    s.(recoveries := s.recoveries + 1)
  }

  /**
   * The app name is optional: giving up on it still publishes the notification,
   * and recovers the stream only if that was asked for.
   */
  function GivenUp(s: Session, recover: bool): Session {
    if s.kind == NotificationAttributes then Recovering(Failed(s))
    else
      var s1 := if s.canceled then Closed(s) else Published(s);
      if recover then Recovering(s1) else s1
  }

  /** One retry per stage. */
  function RetriedOrFinished(s: Session, env: Env, recover: bool): Session {
    if !s.active then s
    else if !env.ready then Closed(s)
    else if s.attempt >= 1 then GivenUp(s, recover)
    else
      var s1 := Wrote(s.(attempt := s.attempt + 1), env.second, env.now);
      if env.second.Sent? then s1
      else if SessionGone(env.second) then Closed(s1)
      else GivenUp(s1, recover)
  }

  /** The first write of a stage. */
  function StageBegun(s: Session, kind: Kind, env: Env): Session {
    var s1 := Wrote(s.(kind := kind, attempt := 0), env.first, env.now);
    if env.first.Sent? then s1
    else if SessionGone(env.first) then Closed(s1)
    else RetriedOrFinished(s1, env, false)
  }

  /** The next queued event becomes the active request. */
  function Started(s: Session, event: Event, env: Env): Session {
    StageBegun(s.(active := true, canceled := false, event := event, taken := s.taken + 1, record := BLANK),
               NotificationAttributes, env)
  }

  /** A fragment was parsed; `request` says whether the app's name must be asked for. */
  function FragmentHandled(s: Session, result: ParserResult, request: bool, env: Env): Session {
    if !s.active || result == More then s
    else if s.canceled then Closed(s)
    else if result == Error then RetriedOrFinished(s, env, true)
    else if s.kind == AppAttributes then Published(s)
    else
      var s1 := s.(record := s.record.(parsed := true));
      if request then StageBegun(s1, AppAttributes, env) else Published(s1)
  }

  function WriteResultHandled(s: Session, ok: bool, env: Env): Session {
    if ok then s
    else if s.canceled then Closed(s)
    else RetriedOrFinished(s, env, false)
  }

  function DeadlineChecked(s: Session, now: int, env: Env): Session {
    if !s.active || now < s.deadline then s
    else if s.canceled then Recovering(Closed(s))
    else RetriedOrFinished(s, env, true)
  }

  predicate Duplicate(s: Session, event: Event, now: int) {
    && s.last.Some? && s.last.value.eventId == event.eventId && s.last.value.uid == event.uid
    && s.last.value.flags == event.flags && s.last.value.categoryCount == event.categoryCount
    && now - s.lastMs <= DUPLICATE_WINDOW_MS
  }

  /** A removal cancels the active request of the same notification: its answer is only drained. */
  function EventHandled(s: Session, event: Event, now: int): Session {
    var s1 := s.(last := Some(event), lastMs := now);
    if Duplicate(s, event, now) || event.eventId as int != REMOVED || !s.active || s.event.uid != event.uid then s1
    else s1.(canceled := true, record := s1.record.(canceled := true))
  }

  function SessionReset(s: Session): Session {
    (if s.active then Closed(s) else s).(canceled := false, last := None)
  }

  datatype Operation =
    | Start(event: Event, env: Env)
    | Fragment(result: ParserResult, request: bool, env: Env)
    | WriteResult(ok: bool, env: Env)
    | CheckDeadline(now: int, env: Env)
    | Receive(event: Event, now: int)
    | Reset

  function After(s: Session, op: Operation): Session {
    match op
    case Start(event, env) => if s.active then s else Started(s, event, env)
    case Fragment(result, request, env) => FragmentHandled(s, result, request, env)
    case WriteResult(ok, env) => WriteResultHandled(s, ok, env)
    case CheckDeadline(now, env) => DeadlineChecked(s, now, env)
    case Receive(event, now) => EventHandled(s, event, now)
    case Reset => SessionReset(s)
  }

  function AfterAll(s: Session, ops: seq<Operation>): Session {
    if ops == [] then s else After(AfterAll(s, ops[..|ops| - 1]), ops[|ops| - 1])
  }

  const NO_EVENT: Event := Event(0, 0, 0, 0, 0)

  const IDLE: Session := Session(false, false, NotificationAttributes, 0, 0, NO_EVENT, None, 0, 0, BLANK, [], 0)

  // ---------- What becomes of every request ----------

  /** A request that is over was written, retried and published within its bounds. */
  ghost predicate Settled(r: Record) {
    && r.writes <= 2 && r.appWrites <= 2
    && r.published + r.failed <= 1
    && (r.canceled ==> r.published + r.failed == 0)
    && (r.published == 1 || r.appWrites > 0 ==> r.parsed)
    && (r.failed == 1 ==> !r.parsed)
  }

  ghost predicate Underway(s: Session) {
    && s.attempt <= 1
    && s.record.published == 0 && s.record.failed == 0
    && s.record.canceled == s.canceled
    && s.record.parsed == (s.kind == AppAttributes)
    && (if s.kind == NotificationAttributes then s.record.writes <= s.attempt + 1 && s.record.appWrites == 0
        else s.record.writes <= 2 && s.record.appWrites <= s.attempt + 1)
  }

  /** Every request that left the queue is over, or it is the active one. */
  ghost predicate Accounted(s: Session) {
    && (forall r <- s.past :: Settled(r))
    && s.taken == |s.past| + (if s.active then 1 else 0)
    && (if s.active then Underway(s) else !s.canceled)
  }

  lemma ClosingSettles(s: Session, closed: Session)
    requires Accounted(s) && s.active && Settled(closed.record)
    requires closed.past == s.past + [closed.record] && !closed.active && !closed.canceled && closed.taken == s.taken
    ensures Accounted(closed)
  {
  }

  lemma GivingUpSettles(s: Session, recover: bool)
    requires Accounted(s) && s.active && (s.kind == NotificationAttributes ==> !s.canceled)
    ensures Accounted(GivenUp(s, recover))
  {
    ClosingSettles(s, GivenUp(s, recover));
  }

  lemma RetryIsAccounted(s: Session, env: Env, recover: bool)
    requires Accounted(s) && !s.canceled
    ensures Accounted(RetriedOrFinished(s, env, recover))
  {
    hide Accounted, GivenUp, Closed, Wrote;
    if s.active && env.ready {
      if s.attempt >= 1 {
        GivingUpSettles(s, recover);
      } else {
        var s1 := Wrote(s.(attempt := s.attempt + 1), env.second, env.now);
        WritingIsAccounted(s, env.second, env.now);
        if !env.second.Sent? && !SessionGone(env.second) {
          GivingUpSettles(s1, recover);
        } else if !env.second.Sent? {
          ClosingIsAccounted(s1);
        }
      }
    } else if s.active {
      ClosingIsAccounted(s);
    }
  }

  lemma WritingIsAccounted(s: Session, outcome: Outcome, now: int)
    requires Accounted(s) && s.active && s.attempt == 0
    ensures var s1 := Wrote(s.(attempt := 1), outcome, now);
            Accounted(s1) && s1.active && s1.canceled == s.canceled && s1.kind == s.kind
  {
    hide Settled;
  }

  /** A stage begins with its first write still to come. */
  lemma StageIsAccounted(s: Session, kind: Kind, env: Env)
    requires Accounted(s.(kind := kind, attempt := 0)) && s.active && !s.canceled
    requires if kind == NotificationAttributes then s.record.writes == 0 else s.record.appWrites == 0
    ensures Accounted(StageBegun(s, kind, env))
  {
    var s1 := Wrote(s.(kind := kind, attempt := 0), env.first, env.now);
    assert Accounted(s1);
    if SessionGone(env.first) {
      ClosingSettles(s1, Closed(s1));
    } else if !env.first.Sent? {
      RetryIsAccounted(s1, env, false);
    }
  }

  lemma FragmentIsAccounted(s: Session, result: ParserResult, request: bool, env: Env)
    requires Accounted(s)
    ensures Accounted(FragmentHandled(s, result, request, env))
  {
    hide Accounted, RetriedOrFinished, StageBegun;
    if s.active && result != More {
      UnderwayIsSettled(s);
      var s1 := s.(record := s.record.(parsed := true));
      if s.canceled {
        ClosingSettles(s, Closed(s));
      } else if result == Error {
        RetryIsAccounted(s, env, true);
      } else if s.kind == AppAttributes {
        ClosingSettles(s, Published(s));
      } else if request {
        StageFollows(s);
        StageIsAccounted(s1, AppAttributes, env);
      } else {
        ClosingSettles(s, Published(s1));
      }
    }
  }

  lemma UnderwayIsSettled(s: Session)
    requires Accounted(s) && s.active
    ensures Settled(s.record) && s.record.published == 0 && s.record.failed == 0 && s.record.canceled == s.canceled
    ensures s.kind == AppAttributes ==> s.record.parsed
  {
  }

  lemma StageFollows(s: Session)
    requires Accounted(s) && s.active && !s.canceled && s.kind == NotificationAttributes
    ensures Accounted(s.(record := s.record.(parsed := true), kind := AppAttributes, attempt := 0)) && s.record.appWrites == 0
  {
  }

  lemma ClosingIsAccounted(s: Session)
    requires Accounted(s) && s.active
    ensures Accounted(Closed(s))
  {
    hide Accounted;
    UnderwayIsSettled(s);
    ClosingSettles(s, Closed(s));
  }

  lemma OperationIsAccounted(s: Session, op: Operation)
    requires Accounted(s)
    ensures Accounted(After(s, op))
  {
    hide RetriedOrFinished, StageBegun, FragmentHandled, Settled;
    match op
    case Start(event, env) =>
      if !s.active {
        StageIsAccounted(s.(active := true, canceled := false, event := event, taken := s.taken + 1, record := BLANK),
                         NotificationAttributes, env);
      }
    case Fragment(result, request, env) => FragmentIsAccounted(s, result, request, env);
    case WriteResult(ok, env) =>
      if !s.canceled {
        RetryIsAccounted(s, env, false);
      } else {
        ClosingIsAccounted(s);
      }
    case CheckDeadline(now, env) =>
      if s.active && !s.canceled {
        RetryIsAccounted(s, env, true);
      } else if s.active {
        ClosingIsAccounted(s);
      }
    case Receive(_, _) =>
    case Reset =>
      if s.active {
        ClosingIsAccounted(s);
      }
  }

  /**
   * Over every history, each request that left the queue is still active or
   * over, was written at most twice per stage and published at most once, and
   * never published if it was cancelled.
   */
  lemma {:induction false} EveryRequestIsAccounted(ops: seq<Operation>)
    ensures Accounted(AfterAll(IDLE, ops))
  {
    hide After, Accounted;
    if ops == [] {
      assert Accounted(IDLE) by {
        IdleIsAccounted();
      }
    } else {
      EveryRequestIsAccounted(ops[..|ops| - 1]);
      OperationIsAccounted(AfterAll(IDLE, ops[..|ops| - 1]), ops[|ops| - 1]);
    }
  }

  lemma IdleIsAccounted()
    ensures Accounted(IDLE)
  {
  }

  lemma RetryExtendsPast(s: Session, env: Env, recover: bool)
    ensures s.past <= RetriedOrFinished(s, env, recover).past
  {
  }

  lemma StageExtendsPast(s: Session, kind: Kind, env: Env)
    ensures s.past <= StageBegun(s, kind, env).past
  {
    hide RetriedOrFinished;
    RetryExtendsPast(Wrote(s.(kind := kind, attempt := 0), env.first, env.now), env, false);
  }

  /** What became of a request is final: it is never written or published again. */
  lemma PastIsFinal(s: Session, op: Operation)
    ensures s.past <= After(s, op).past
  {
    hide RetriedOrFinished, StageBegun;
    match op
    case Start(event, env) =>
      StageExtendsPast(s.(active := true, canceled := false, event := event, taken := s.taken + 1, record := BLANK),
                       NotificationAttributes, env);
    case Fragment(_, _, env) =>
      RetryExtendsPast(s, env, true);
      StageExtendsPast(s.(record := s.record.(parsed := true)), AppAttributes, env);
    case WriteResult(_, env) => RetryExtendsPast(s, env, false);
    case CheckDeadline(_, env) => RetryExtendsPast(s, env, true);
    case Receive(_, _) =>
    case Reset =>
  }

  /** The writes a request may still see before it is given up. */
  function Patience(s: Session): nat {
    if !s.active then 0 else (if s.kind == NotificationAttributes then 2 else 0) + (if s.attempt == 0 then 2 else 1)
  }

  /** Every expired deadline uses up patience and nothing restores it, so four of them end any request. */
  lemma ExpirySpendsPatience(s: Session, op: Operation)
    requires Accounted(s) && !op.Start?
    ensures Patience(After(s, op)) <= Patience(s) <= 4
    ensures op.CheckDeadline? && s.active && op.now >= s.deadline ==> Patience(After(s, op)) < Patience(s)
  {
    hide Settled;
  }

  /**
   * An expired deadline recovers the stream exactly when it ends the request
   * and the session is still there to be ended.
   */
  lemma ExpiryRecoversIff(s: Session, now: int, env: Env)
    requires Accounted(s) && s.active && now >= s.deadline
    ensures var s' := After(s, CheckDeadline(now, env));
            && s'.recoveries == s.recoveries + (if s'.active || SessionLost(s, env) then 0 else 1)
  {
    hide Accounted, Settled;
  }

  /** A request that is not cancelled finds the session gone when it is looked at or written again. */
  predicate SessionLost(s: Session, env: Env) {
    !s.canceled && (!env.ready || (s.attempt == 0 && SessionGone(env.second)))
  }

  // ---------- The worker ----------

  datatype Disposal = Suppressed | Removal | Queued | Overflow

  class Worker {
    const pending: Queue
    const client: ClientSession.Session
    var active: bool
    var canceled: bool
    var kind: Kind
    var attempt: nat
    var deadline: int
    var event: Event
    var last: Option<Event>
    var lastMs: int
    ghost var taken: nat
    ghost var record: Record
    ghost var past: seq<Record>
    ghost var recoveries: nat

    ghost function View(): Session
      reads this
    {
      Session(active, canceled, kind, attempt, deadline, event, last, lastMs, taken, record, past, recoveries)
    }

    ghost predicate Valid()
      reads this, pending, pending.items
    {
      pending.Valid() && Accounted(View())
    }

    constructor (client: ClientSession.Session)
      ensures Valid() && View() == IDLE && fresh(pending) && fresh(pending.items) && pending.Contents() == []
      ensures this.client == client
    {
      pending := new Queue();
      this.client := client;
      active, canceled, kind, attempt, deadline := false, false, NotificationAttributes, 0, 0;
      event, last, lastMs := NO_EVENT, None, 0;
      taken, record, past, recoveries := 0, BLANK, [], 0;
    }

    method Close()
      modifies this`active, this`canceled, this`past
      ensures View() == Closed(old(View()))
    {
      active := false;
      canceled := false;
      past := past + [record];
    }

    method Publish(complete: bool)
      modifies this`active, this`canceled, this`past, this`record
      ensures View() == if complete then Published(old(View())) else Failed(old(View()))
    {
      record := if complete then record.(published := record.published + 1) else record.(failed := record.failed + 1);
      Close();
    }

    /** What the shared session is after some number of recoveries. */
    ghost function Recovered(c: ClientSession.Client, times: int): ClientSession.Client {
      if times > 0 then ClientSession.StreamRecovering(c) else c
    }

    method Recover()
      modifies this`recoveries, client`link
      ensures View() == Recovering(old(View()))
      ensures client.View() == ClientSession.StreamRecovering(old(client.View()))
    {
      recoveries := recoveries + 1;
      var _ := client.RecoverStream();
    }

    method WriteControlRequest(outcome: Outcome, now: int)
      modifies this`deadline, this`record
      ensures View() == Wrote(old(View()), outcome, now)
    {
      if outcome.Unencodable? || outcome.NotValid? {
        return;
      }
      record := if kind == AppAttributes then record.(appWrites := record.appWrites + 1)
                else record.(writes := record.writes + 1);
      if outcome.Sent? {
        deadline := now + REQUEST_TIMEOUT_MS;
      }
    }

    method GiveUp(recover: bool)
      modifies this`active, this`canceled, this`past, this`record, this`recoveries, client`link
      ensures View() == GivenUp(old(View()), recover)
      ensures client.View() == Recovered(old(client.View()), recoveries - old(recoveries))
    {
      if kind == AppAttributes {
        if canceled {
          Close();
        } else {
          Publish(true);
        }
        if recover {
          Recover();
        }
      } else {
        Publish(false);
        Recover();
      }
    }

    method RetryOrFinish(env: Env, recover: bool)
      modifies this`active, this`canceled, this`past, this`record, this`deadline, this`attempt, this`recoveries
      modifies client`link
      ensures View() == RetriedOrFinished(old(View()), env, recover)
      ensures client.View() == Recovered(old(client.View()), recoveries - old(recoveries))
    {
      hide GivenUp, Wrote, Closed, SessionGone;
      if !active {
        return;
      }
      if !env.ready {
        Close();
        return;
      }
      if attempt < 1 {
        attempt := attempt + 1;
        WriteControlRequest(env.second, env.now);
        if env.second.Sent? {
          return;
        }
        if SessionGone(env.second) {
          Close();
          return;
        }
      }
      GiveUp(recover);
    }

    method BeginStage(stage: Kind, env: Env)
      modifies this`active, this`canceled, this`past, this`record, this`deadline, this`attempt, this`kind, this`recoveries
      modifies client`link
      ensures View() == StageBegun(old(View()), stage, env)
      ensures client.View() == Recovered(old(client.View()), recoveries - old(recoveries))
    {
      kind := stage;
      attempt := 0;
      WriteControlRequest(env.first, env.now);
      if SessionGone(env.first) {
        Close();
      } else if !env.first.Sent? {
        RetryOrFinish(env, false);
      }
    }

    /** Takes the oldest queued event unless a request is active or the session is not ready. */
    method StartNext(ready: bool, env: Env) returns (started: Option<Event>)
      requires Valid()
      modifies this, pending, client`link
      ensures Valid() && client.View() == Recovered(old(client.View()), recoveries - old(recoveries))
      ensures started.Some? <==> !old(active) && ready && old(pending.Contents()) != []
      ensures started.Some? ==>
                && old(pending.Contents()) == [started.value] + pending.Contents()
                && View() == After(old(View()), Start(started.value, env))
      ensures started.None? ==> View() == old(View()) && pending.Contents() == old(pending.Contents())
    {
      if active || !ready {
        return None;
      }
      var ok, next := pending.Pop();
      if !ok {
        return None;
      }
      OperationIsAccounted(View(), Start(next, env));
      event := next;
      active, canceled := true, false;
      taken, record := taken + 1, BLANK;
      BeginStage(NotificationAttributes, env);
      return Some(next);
    }

    method ProcessFragment(result: ParserResult, request: bool, env: Env)
      requires Valid()
      modifies this, client`link
      ensures Valid() && View() == After(old(View()), Fragment(result, request, env))
      ensures client.View() == Recovered(old(client.View()), recoveries - old(recoveries))
    {
      OperationIsAccounted(View(), Fragment(result, request, env));
      if !active {
        return;
      }
      match result
      case Complete =>
        if canceled {
          Close();
        } else if kind == NotificationAttributes {
          record := record.(parsed := true);
          if request {
            BeginStage(AppAttributes, env);
          } else {
            Publish(true);
          }
        } else {
          Publish(true);
        }
      case Error =>
        if canceled {
          Close();
        } else {
          RetryOrFinish(env, true);
        }
      case More =>
    }

    method ProcessWriteResult(ok: bool, env: Env)
      requires Valid()
      modifies this, client`link
      ensures Valid() && View() == After(old(View()), WriteResult(ok, env))
      ensures client.View() == Recovered(old(client.View()), recoveries - old(recoveries))
    {
      OperationIsAccounted(View(), WriteResult(ok, env));
      if !ok {
        if canceled {
          Close();
        } else {
          RetryOrFinish(env, false);
        }
      }
    }

    method CheckRequestDeadline(now: int, env: Env)
      requires Valid()
      modifies this, client`link
      ensures Valid() && View() == After(old(View()), CheckDeadline(now, env))
      ensures client.View() == Recovered(old(client.View()), recoveries - old(recoveries))
    {
      OperationIsAccounted(View(), CheckDeadline(now, env));
      if active && now >= deadline {
        if canceled {
          Close();
          Recover();
        } else {
          RetryOrFinish(env, true);
        }
      }
    }

    method IsDuplicate(incoming: Event, now: int) returns (duplicate: bool)
      modifies this`last, this`lastMs
      ensures View() == old(View()).(last := Some(incoming), lastMs := now)
      ensures duplicate == Duplicate(old(View()), incoming, now)
    {
      duplicate := last.Some? && last.value.eventId == incoming.eventId && last.value.uid == incoming.uid
                   && last.value.flags == incoming.flags && last.value.categoryCount == incoming.categoryCount
                   && now - lastMs <= DUPLICATE_WINDOW_MS;
      last, lastMs := Some(incoming), now;
    }

    method CancelActive(uid: nat)
      modifies this`canceled, this`record
      ensures var v := old(View());
              View() == if v.active && v.event.uid == uid
                        then v.(canceled := true, record := v.record.(canceled := true)) else v
    {
      if active && event.uid == uid {
        canceled := true;
        record := record.(canceled := true);
      }
    }

    /** A removal leaves no queued event of its notification; any other event is queued if there is room. */
    method ProcessEvent(incoming: Event, now: int) returns (disposal: Disposal)
      requires Valid()
      modifies this, pending, pending.items
      ensures Valid() && View() == After(old(View()), Receive(incoming, now))
      ensures disposal == Suppressed <==> Duplicate(old(View()), incoming, now)
      ensures disposal == Removal ==> forall e :: e in pending.Contents() ==> e.uid != incoming.uid
      ensures disposal == Queued ==> pending.Contents() == old(pending.Contents()) + [incoming]
      ensures disposal == Overflow ==> |old(pending.Contents())| == CAPACITY
      ensures disposal == Overflow || disposal == Suppressed ==> pending.Contents() == old(pending.Contents())
      ensures disposal != Suppressed ==> (disposal == Removal <==> incoming.eventId as int == REMOVED)
    {
      OperationIsAccounted(View(), Receive(incoming, now));
      var duplicate := IsDuplicate(incoming, now);
      if duplicate {
        return Suppressed;
      }
      if incoming.eventId as int == REMOVED {
        var _ := pending.CancelUid(incoming.uid);
        CancelActive(incoming.uid);
        return Removal;
      }
      var ok := pending.Push(incoming);
      return if ok then Queued else Overflow;
    }

    method ResetSession()
      requires Valid()
      modifies this, pending
      ensures Valid() && View() == After(old(View()), Reset) && pending.Contents() == []
    {
      OperationIsAccounted(View(), Reset);
      pending.Clear();
      if active {
        Close();
      }
      canceled := false;
      last := None;
    }
  }
}
