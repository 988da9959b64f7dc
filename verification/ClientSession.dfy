/** The shared session state of the ANCS client. */
module ClientSession {

  // One function and one method per critical section of the callbacks, the retry
  // timer and the worker.

  const INVALID_HANDLE: nat := 0
  const AUTH_TIMEOUT_MS: int := 30000
  const DISCOVERY_TIMEOUT_MS: int := 15000
  const SUBSCRIBE_TIMEOUT_MS: int := 10000
  const PREPARE_TIMEOUT_MS: int := 90000
  const DISCOVERY_RETRIES: nat := 2
  const CLOSE_RETRY_MS: int := 3000

  /** The progress of a link from connection to readiness. */
  datatype Link = Link(
    connected: bool,
    authenticated: bool,
    encrypted: bool,
    closing: bool,
    mtuReady: bool,
    discovering: bool,
    serviceFound: bool,
    dataSubscribed: bool,
    notificationSubscribed: bool,
    ready: bool)

  datatype Handles = Handles(
    serviceStart: nat,
    serviceEnd: nat,
    notificationSource: nat,
    dataSource: nat,
    controlPoint: nat,
    dataCccd: nat,
    notificationCccd: nat,
    pendingNotify: nat,
    pendingNotifyGeneration: nat)

  datatype Timing = Timing(
    stageDeadline: int,
    prepareDeadline: int,
    retryDue: int,
    retryGeneration: nat,
    discoveryAttempt: nat,
    closeAttempts: nat,
    closeRetryDue: int)

  datatype Client = Client(
    link: Link,
    handles: Handles,
    timing: Timing,
    connId: nat,
    sessionId: nat,
    generation: nat)

  const NO_LINK: Link := Link(false, false, false, false, false, false, false, false, false, false)
  const NO_HANDLES: Handles := Handles(0, 0, 0, 0, 0, 0, 0, 0, 0)

  /** The client before the first connection. */
  const INITIAL: Client := Client(NO_LINK, NO_HANDLES, Timing(0, 0, 0, 0, 0, 0, 0), 0, 0, 0)

  /** The session id counts in 32 bits. */
  function NextSessionId(id: nat): nat {
    (id + 1) % 0x1_0000_0000
  }

  // ---------- Critical sections ----------

  /** The discovered service, its subscriptions and readiness are gone. */
  function Invalidated(c: Client): Client {
    c.(link := c.link.(serviceFound := false, discovering := false, ready := false,
                       dataSubscribed := false, notificationSubscribed := false),
    handles := NO_HANDLES)
  }

  /** A peer connects; a second connection is ignored. */
  function Connected(c: Client, connId: nat, now: int): Client {
    if c.link.connected then c
    else
      var started := c.(generation := c.generation + 1,
                      link := c.link.(authenticated := false, encrypted := false, closing := false, mtuReady := false),
                      timing := Timing(now + AUTH_TIMEOUT_MS, now + PREPARE_TIMEOUT_MS, 0, c.timing.retryGeneration, 0, 0, 0));
      var c1 := Invalidated(started);
      c1.(connId := connId, link := c1.link.(connected := true))
  }

  /** The link is down: every trace of the session is cleared under a new generation. */
  function Disconnected(c: Client): Client {
    var c1 := Invalidated(c.(generation := c.generation + 1));
    c1.(link := c1.link.(connected := false, authenticated := false, encrypted := false, closing := false, mtuReady := false),
    timing := Timing(0, 0, 0, c.timing.retryGeneration, 0, 0, 0))
  }

  /** The phone changed its services: discovery starts over under a new generation. */
  function ServiceChanged(c: Client, now: int): Client {
    if !c.link.connected || c.link.closing then c
    else
      Invalidated(c.(generation := c.generation + 1,
                  timing := c.timing.(prepareDeadline := now + PREPARE_TIMEOUT_MS, retryDue := 0, discoveryAttempt := 0)))
  }

  function AuthenticationSucceeded(c: Client, now: int): Client {
    c.(link := c.link.(authenticated := true, encrypted := true),
    timing := c.timing.(stageDeadline := now + DISCOVERY_TIMEOUT_MS))
  }

  function AuthenticationFailed(c: Client): Client {
    c.(link := c.link.(closing := true, authenticated := false, encrypted := false, ready := false),
    timing := c.timing.(retryDue := 0))
  }

  function MtuConfigured(c: Client): Client {
    c.(link := c.link.(mtuReady := true))
  }

  predicate MayDiscover(c: Client, registered: bool) {
    && c.link.connected && !c.link.closing && c.link.authenticated && c.link.encrypted && c.link.mtuReady
    && !c.link.ready && registered && !c.link.discovering
  }

  function DiscoveryStarted(c: Client, registered: bool, now: int): Client {
    if !MayDiscover(c, registered) then c
    else
      c.(link := c.link.(ready := false, dataSubscribed := false, notificationSubscribed := false,
                         serviceFound := false, discovering := true),
      handles := c.handles.(notificationSource := 0, dataSource := 0, controlPoint := 0, dataCccd := 0, notificationCccd := 0),
      timing := c.timing.(retryDue := 0, stageDeadline := now + DISCOVERY_TIMEOUT_MS))
  }

  function DiscoveryNotStarted(c: Client): Client {
    c.(link := c.link.(discovering := false))
  }

  /** Two retries after 2 and 5 seconds; after that the stage deadline is due at once. */
  function RetryScheduled(c: Client, now: int): Client {
    if !c.link.connected || c.link.closing || !c.link.authenticated || c.link.discovering || c.timing.retryDue != 0 then c
    else if c.timing.discoveryAttempt >= DISCOVERY_RETRIES then c.(timing := c.timing.(stageDeadline := now))
    else
      var due := now + (if c.timing.discoveryAttempt == 0 then 2000 else 5000);
      c.(timing := c.timing.(discoveryAttempt := c.timing.discoveryAttempt + 1, retryGeneration := c.generation,
                             retryDue := due, stageDeadline := due + DISCOVERY_TIMEOUT_MS))
  }

  predicate RetryIsDue(c: Client, now: int) {
    && c.link.connected && !c.link.closing && c.timing.retryGeneration == c.generation
    && c.timing.retryDue != 0 && now >= c.timing.retryDue
  }

  function RetryFired(c: Client, now: int): Client {
    if RetryIsDue(c, now) then c.(timing := c.timing.(retryDue := 0)) else c
  }

  function ServiceSeen(c: Client, start: nat, end: nat): Client {
    c.(link := c.link.(serviceFound := true), handles := c.handles.(serviceStart := start, serviceEnd := end))
  }

  function SearchCompleted(c: Client): Client {
    c.(link := c.link.(discovering := false))
  }

  /** The characteristics found for a service are kept only if that service is still the current one. */
  function CharacteristicsFound(c: Client, generation: nat, start: nat, end: nat,
                                notificationSource: nat, dataSource: nat, controlPoint: nat): Client {
    if c.link.connected && c.generation == generation && c.handles.serviceStart == start && c.handles.serviceEnd == end then
      c.(handles := c.handles.(notificationSource := notificationSource, dataSource := dataSource, controlPoint := controlPoint),
      timing := c.timing.(discoveryAttempt := 0))
    else c
  }

  /** Registration for the notifications of one of the two sources begins. */
  function SubscriptionBegun(c: Client, data: bool, now: int): Client {
    if !c.link.connected || c.link.closing || !c.link.authenticated then c
    else
      c.(timing := c.timing.(stageDeadline := now + SUBSCRIBE_TIMEOUT_MS),
      handles := c.handles.(pendingNotify := if data then c.handles.dataSource else c.handles.notificationSource,
                            pendingNotifyGeneration := c.generation))
  }

  predicate RegistrationExpected(c: Client, handle: nat) {
    && c.link.connected && !c.link.closing && c.link.authenticated
    && c.handles.pendingNotifyGeneration == c.generation
    && c.handles.pendingNotify != INVALID_HANDLE && c.handles.pendingNotify == handle
  }

  function Registered(c: Client, handle: nat): Client {
    if RegistrationExpected(c, handle) then c.(handles := c.handles.(pendingNotify := INVALID_HANDLE)) else c
  }

  /** The descriptor handle is kept if its characteristic was not replaced meanwhile. */
  function CccdSaved(c: Client, data: bool, characteristic: nat, cccd: nat): Client {
    if data then
      if c.handles.dataSource == characteristic then c.(handles := c.handles.(dataCccd := cccd)) else c
    else if c.handles.notificationSource == characteristic then c.(handles := c.handles.(notificationCccd := cccd)) else c
  }

  function DataSubscribed(c: Client): Client {
    c.(link := c.link.(dataSubscribed := true))
  }

  /** The last subscription: the session is ready if all the earlier stages still hold. */
  function NotificationSubscribed(c: Client): Client {
    var ready := c.link.connected && c.link.authenticated && c.link.encrypted && c.link.serviceFound && c.link.dataSubscribed;
    c.(sessionId := if ready && !c.link.ready then NextSessionId(c.sessionId) else c.sessionId,
    link := c.link.(notificationSubscribed := true, ready := ready),
    timing := c.timing.(stageDeadline := 0, retryDue := 0))
  }

  predicate Expired(c: Client, now: int) {
    && c.link.connected && !c.link.ready && !c.link.closing
    && ((c.timing.stageDeadline != 0 && now >= c.timing.stageDeadline)
        || (c.timing.prepareDeadline != 0 && now >= c.timing.prepareDeadline))
  }

  /** An overdue stage closes the link; the close command is repeated at most twice. */
  function DeadlineChecked(c: Client, now: int): (r: (Client, bool)) {
    var c1 := if Expired(c, now)
              then c.(link := c.link.(closing := true, ready := false), timing := c.timing.(retryDue := 0)) else c;
    var close := c1.link.connected && c1.link.closing && c1.timing.closeAttempts < 3 && now >= c1.timing.closeRetryDue;
    (if close
     then c1.(timing := c1.timing.(closeAttempts := c1.timing.closeAttempts + 1, closeRetryDue := now + CLOSE_RETRY_MS))
     else c1, close)
  }

  function StreamRecovering(c: Client): Client {
    c.(link := c.link.(ready := false))
  }

  /** What the worker checks before it writes to the Control Point. */
  predicate RequestValid(c: Client, workerGeneration: nat, registered: bool) {
    && c.link.ready && c.link.connected && c.generation == workerGeneration
    && registered && c.handles.controlPoint != INVALID_HANDLE
  }

  // ---------- The critical sections as one alphabet ----------

  datatype Section =
    | Connect(connId: nat, now: int)
    | Disconnect
    | ChangeService(now: int)
    | AuthSucceed(now: int)
    | AuthFail
    | ConfigureMtu
    | StartDiscovery(registered: bool, now: int)
    | AbortDiscovery
    | ScheduleRetry(now: int)
    | FireRetry(now: int)
    | SeeService(start: nat, end: nat)
    | CompleteSearch
    | FindCharacteristics(generation: nat, serviceStart: nat, serviceEnd: nat, source: nat, data: nat, control: nat)
    | BeginSubscription(forData: bool, now: int)
    | Register(handle: nat)
    | SaveCccd(ofData: bool, characteristic: nat, cccd: nat)
    | SubscribeData
    | SubscribeNotifications
    | CheckDeadline(now: int)
    | RecoverStream
    | Invalidate

  function After(c: Client, section: Section): Client {
    match section
    case Connect(connId, now) => Connected(c, connId, now)
    case Disconnect => Disconnected(c)
    case ChangeService(now) => ServiceChanged(c, now)
    case AuthSucceed(now) => AuthenticationSucceeded(c, now)
    case AuthFail => AuthenticationFailed(c)
    case ConfigureMtu => MtuConfigured(c)
    case StartDiscovery(registered, now) => DiscoveryStarted(c, registered, now)
    case AbortDiscovery => DiscoveryNotStarted(c)
    case ScheduleRetry(now) => RetryScheduled(c, now)
    case FireRetry(now) => RetryFired(c, now)
    case SeeService(start, end) => ServiceSeen(c, start, end)
    case CompleteSearch => SearchCompleted(c)
    case FindCharacteristics(generation, start, end, source, data, control) =>
      CharacteristicsFound(c, generation, start, end, source, data, control)
    case BeginSubscription(data, now) => SubscriptionBegun(c, data, now)
    case Register(handle) => Registered(c, handle)
    case SaveCccd(data, characteristic, cccd) => CccdSaved(c, data, characteristic, cccd)
    case SubscribeData => DataSubscribed(c)
    case SubscribeNotifications => NotificationSubscribed(c)
    case CheckDeadline(now) => DeadlineChecked(c, now).0
    case RecoverStream => StreamRecovering(c)
    case Invalidate => Invalidated(c)
  }

  /** The critical sections in which the generation advances. */
  predicate AdvancesGeneration(c: Client, section: Section) {
    match section
    case Connect(_, _) => !c.link.connected
    case Disconnect => true
    case ChangeService(_) => c.link.connected && !c.link.closing
    case _ => false
  }

  // ---------- Readiness over every interleaving ----------

  /** A ready session went through every stage of its link. */
  ghost predicate ReadyIsEarned(c: Client) {
    c.link.ready ==>
      && c.link.connected && c.link.authenticated && c.link.encrypted
      && c.link.serviceFound && c.link.dataSubscribed && c.link.notificationSubscribed
  }

  /** The client after any interleaving of critical sections. */
  ghost function AfterAll(c: Client, sections: seq<Section>): Client {
    if sections == [] then c
    else After(AfterAll(c, sections[..|sections| - 1]), sections[|sections| - 1])
  }

  /** How often readiness went from false to true. */
  ghost function Rises(c: Client, sections: seq<Section>): nat {
    if sections == [] then 0
    else
      var before := AfterAll(c, sections[..|sections| - 1]);
      Rises(c, sections[..|sections| - 1])
      + (if !before.link.ready && After(before, sections[|sections| - 1]).link.ready then 1 else 0)
  }

  lemma SectionKeepsReadiness(c: Client, section: Section)
    requires ReadyIsEarned(c)
    ensures ReadyIsEarned(After(c, section))
  {
    if section == SubscribeNotifications {
    } else if After(c, section).link.ready {
      OtherSectionsDoNotRaise(c, section);
      SectionKeepsStages(c, section);
    }
  }

  /** Short of ending readiness, no section takes a stage back. */
  lemma SectionKeepsStages(c: Client, section: Section)
    requires section != SubscribeNotifications && c.link.ready && After(c, section).link.ready
    ensures var link := After(c, section).link;
            && (c.link.connected ==> link.connected) && (c.link.authenticated ==> link.authenticated)
            && (c.link.encrypted ==> link.encrypted) && (c.link.serviceFound ==> link.serviceFound)
            && (c.link.dataSubscribed ==> link.dataSubscribed)
            && (c.link.notificationSubscribed ==> link.notificationSubscribed)
  {
    match section
    case Connect(_, _) =>
    case ChangeService(_) =>
    case StartDiscovery(_, _) =>
    case CheckDeadline(_) =>
    case _ =>
  }

  /** A session is counted exactly when readiness rises. */
  lemma SectionCountsSessions(c: Client, section: Section)
    ensures var c' := After(c, section);
            c'.sessionId == (if !c.link.ready && c'.link.ready then NextSessionId(c.sessionId) else c.sessionId)
  {
    if section != SubscribeNotifications {
      OtherSectionsDoNotRaise(c, section);
    }
  }

  /** Every generation starts unready, and a connection is only lost together with its generation. */
  lemma SectionAdvancesGeneration(c: Client, section: Section)
    ensures var c' := After(c, section);
            && c'.generation == c.generation + (if AdvancesGeneration(c, section) then 1 else 0)
            && (AdvancesGeneration(c, section) ==> !c'.link.ready)
            && (c.link.connected && !c'.link.connected ==> AdvancesGeneration(c, section))
  {
  }

  /**
   * In every interleaving of the callbacks, the timer and the worker, a ready
   * session is connected, authenticated, encrypted and subscribed to both
   * sources, and the session id counts exactly the rises of readiness.
   */
  lemma {:induction false} ReadinessIsEarnedAlways(sections: seq<Section>)
    ensures var c := AfterAll(INITIAL, sections);
            ReadyIsEarned(c) && c.sessionId == Rises(INITIAL, sections) % 0x1_0000_0000
    decreases |sections|
  {
    hide After;
    if sections != [] {
      var before := sections[..|sections| - 1];
      ReadinessIsEarnedAlways(before);
      SectionKeepsReadiness(AfterAll(INITIAL, before), sections[|sections| - 1]);
      SectionCountsSessions(AfterAll(INITIAL, before), sections[|sections| - 1]);
      var n := Rises(INITIAL, before);
      ModSucc(n);
    }
  }

  lemma ModSucc(n: nat)
    ensures NextSessionId(n % 0x1_0000_0000) == (n + 1) % 0x1_0000_0000
  {
  }

  lemma OtherSectionsDoNotRaise(c: Client, section: Section)
    requires section != SubscribeNotifications
    ensures After(c, section).link.ready ==> c.link.ready
    ensures After(c, section).sessionId == c.sessionId
  {
    match section
    case Connect(_, _) =>
    case Disconnect =>
    case ChangeService(_) =>
    case AuthSucceed(_) =>
    case AuthFail =>
    case StartDiscovery(_, _) =>
    case CheckDeadline(_) =>
    case RecoverStream =>
    case Invalidate =>
    case _ =>
  }

  /** Readiness rises in one place only, and only if every earlier stage still holds at that moment. */
  lemma ReadyOnlyAfterAllStages(c: Client, section: Section)
    requires !c.link.ready && After(c, section).link.ready
    ensures section == SubscribeNotifications
    ensures c.link.connected && c.link.authenticated && c.link.encrypted && c.link.serviceFound && c.link.dataSubscribed
  {
    if section != SubscribeNotifications {
      OtherSectionsDoNotRaise(c, section);
    }
  }

  // ---------- No connection stays unready ----------

  /** When preparing the link began: at the last connection or service change. */
  ghost function PreparedAt(c: Client, sections: seq<Section>): int
    decreases |sections|
  {
    if sections == [] then 0
    else
      var before, last := sections[..|sections| - 1], sections[|sections| - 1];
      if AdvancesGeneration(AfterAll(c, before), last) && (last.Connect? || last.ChangeService?) then last.now
      else PreparedAt(c, before)
  }

  /** Both counters stay within their limits, and a connection has its deadline. */
  ghost predicate Bounded(c: Client, prepared: int) {
    && c.timing.closeAttempts <= 3 && c.timing.discoveryAttempt <= DISCOVERY_RETRIES
    && (c.link.connected ==> c.timing.prepareDeadline == prepared + PREPARE_TIMEOUT_MS)
  }

  lemma SectionKeepsBounds(c: Client, section: Section, prepared: int)
    requires Bounded(c, prepared)
    ensures Bounded(After(c, section), if AdvancesGeneration(c, section) && (section.Connect? || section.ChangeService?)
                                       then section.now else prepared)
  {
    match section
    case Connect(_, now) => assert Bounded(Connected(c, section.connId, now), if c.link.connected then prepared else now);
    case Disconnect => assert Bounded(Disconnected(c), prepared);
    case ChangeService(now) =>
      assert Bounded(ServiceChanged(c, now), if c.link.connected && !c.link.closing then now else prepared);
    case ScheduleRetry(now) => assert Bounded(RetryScheduled(c, now), prepared);
    case CheckDeadline(now) => assert Bounded(DeadlineChecked(c, now).0, prepared);
    case FindCharacteristics(g, a, b, n, d, k) => assert Bounded(CharacteristicsFound(c, g, a, b, n, d, k), prepared);
    case _ => assert After(c, section).timing.closeAttempts == c.timing.closeAttempts;
  }

  lemma {:induction false} BoundsHold(sections: seq<Section>)
    ensures Bounded(AfterAll(INITIAL, sections), PreparedAt(INITIAL, sections))
    decreases |sections|
  {
    hide After, AdvancesGeneration, Bounded;
    if sections == [] {
      assert Bounded(INITIAL, 0) by {
        InitialIsBounded();
      }
    } else {
      var before := sections[..|sections| - 1];
      BoundsHold(before);
      SectionKeepsBounds(AfterAll(INITIAL, before), sections[|sections| - 1], PreparedAt(INITIAL, before));
    }
  }

  lemma InitialIsBounded()
    ensures Bounded(INITIAL, 0)
  {
  }

  /**
   * In every interleaving, the deadline check leaves no connection unready and
   * open once 90 seconds have passed since its preparation began. It asks for
   * the close at most three times and retries discovery at most twice.
   */
  lemma UnreadyConnectionsAreClosed(sections: seq<Section>, now: int)
    requires now >= PreparedAt(INITIAL, sections) + 90000 && PreparedAt(INITIAL, sections) >= 0
    ensures var c := DeadlineChecked(AfterAll(INITIAL, sections), now).0;
            c.link.connected ==> (c.link.ready && AfterAll(INITIAL, sections).link.ready) || c.link.closing
    ensures AfterAll(INITIAL, sections).timing.closeAttempts <= 3
    ensures AfterAll(INITIAL, sections).timing.discoveryAttempt <= 2
  {
    BoundsHold(sections);
    hide AfterAll, PreparedAt;
  }

  // ---------- The close requests ----------

  /** When closing the present link was asked for. */
  ghost function Asked(sections: seq<Section>): seq<int>
    decreases |sections|
  {
    if sections == [] then []
    else
      var before, last := sections[..|sections| - 1], sections[|sections| - 1];
      var c := AfterAll(INITIAL, before);
      if last.Disconnect? || (last.Connect? && !c.link.connected) then []
      else if last.CheckDeadline? && DeadlineChecked(c, last.now).1 then Asked(before) + [last.now]
      else Asked(before)
  }

  ghost predicate Counted(c: Client, asked: seq<int>) {
    && |asked| == c.timing.closeAttempts
    && c.timing.closeRetryDue == (if asked == [] then 0 else asked[|asked| - 1] + 3000)
    && (c.link.connected && asked != [] ==> c.link.closing)
  }

  lemma CheckCounts(c: Client, now: int, asked: seq<int>)
    requires Counted(c, asked)
    ensures Counted(DeadlineChecked(c, now).0, if DeadlineChecked(c, now).1 then asked + [now] else asked)
  {
  }

  lemma OthersCount(c: Client, section: Section, asked: seq<int>)
    requires Counted(c, asked) && !section.CheckDeadline?
    ensures Counted(After(c, section), if section.Disconnect? || (section.Connect? && !c.link.connected) then [] else asked)
  {
    match section
    case Connect(connId, now) => assert Counted(Connected(c, connId, now), if c.link.connected then asked else []);
    case Disconnect => assert Counted(Disconnected(c), []);
    case ChangeService(now) => assert Counted(ServiceChanged(c, now), asked);
    case ScheduleRetry(now) => assert Counted(RetryScheduled(c, now), asked);
    case FindCharacteristics(g, a, b, n, d, k) => assert Counted(CharacteristicsFound(c, g, a, b, n, d, k), asked);
    case CheckDeadline(_) =>
    case _ => assert After(c, section).timing.closeAttempts == c.timing.closeAttempts;
  }

  lemma {:induction false} RequestsAreCounted(sections: seq<Section>)
    ensures Counted(AfterAll(INITIAL, sections), Asked(sections))
    decreases |sections|
  {
    hide After, DeadlineChecked, Counted;
    if sections == [] {
      assert Counted(INITIAL, []) by {
        NothingCounted();
      }
    } else {
      var before, last := sections[..|sections| - 1], sections[|sections| - 1];
      RequestsAreCounted(before);
      if last.CheckDeadline? {
        CheckCounts(AfterAll(INITIAL, before), last.now, Asked(before));
        CheckIs(AfterAll(INITIAL, before), last.now);
      } else {
        OthersCount(AfterAll(INITIAL, before), last, Asked(before));
      }
    }
  }

  lemma NothingCounted()
    ensures Counted(INITIAL, [])
  {
  }

  lemma CheckIs(c: Client, now: int)
    ensures After(c, CheckDeadline(now)) == DeadlineChecked(c, now).0
  {
  }

  /**
   * In every interleaving, a deadline check asks for the link to be closed if and
   * only if it is closing or overdue, fewer than three requests were made, and
   * the last one is three seconds ago.
   */
  lemma CloseIsAskedIff(sections: seq<Section>, now: int)
    requires now >= 0
    ensures var c, asked := AfterAll(INITIAL, sections), Asked(sections);
            DeadlineChecked(c, now).1
            <==> && c.link.connected
                 && (c.link.closing || (!c.link.ready && Overdue(c.timing, now)))
                 && |asked| < 3 && (asked == [] || now >= asked[|asked| - 1] + 3000)
  {
    RequestsAreCounted(sections);
    hide AfterAll, Asked;
  }

  /** One of the two deadlines that are set has passed. */
  predicate Overdue(timing: Timing, now: int) {
    || (timing.stageDeadline != 0 && timing.stageDeadline <= now)
    || (timing.prepareDeadline != 0 && timing.prepareDeadline <= now)
  }

  // ---------- The shared structure ----------

  class Session {
    var link: Link
    var handles: Handles
    var timing: Timing
    var connId: nat
    var sessionId: nat
    var generation: nat

    ghost function View(): Client
      reads this
    {
      Client(link, handles, timing, connId, sessionId, generation)
    }

    constructor ()
      ensures View() == INITIAL
    {
      link, handles, timing := NO_LINK, NO_HANDLES, Timing(0, 0, 0, 0, 0, 0, 0);
      connId, sessionId, generation := 0, 0, 0;
    }

    method InvalidateHandles()
      modifies this`link, this`handles
      ensures View() == Invalidated(old(View()))
    {
      link := link.(serviceFound := false, discovering := false, ready := false);
      link := link.(dataSubscribed := false, notificationSubscribed := false);
      handles := NO_HANDLES;
    }

    /** The connection callback: a second peer is ignored while one is connected. */
    method HandleConnect(id: nat, now: int) returns (accepted: bool)
      modifies this
      ensures View() == Connected(old(View()), id, now) && accepted == !old(link.connected)
    {
      if link.connected {
        return false;
      }
      generation := generation + 1;
      link := link.(authenticated := false, encrypted := false, closing := false, mtuReady := false);
      timing := timing.(closeAttempts := 0, closeRetryDue := 0, discoveryAttempt := 0, retryDue := 0);
      timing := timing.(prepareDeadline := now + PREPARE_TIMEOUT_MS, stageDeadline := now + AUTH_TIMEOUT_MS);
      InvalidateHandles();
      connId := id;
      link := link.(connected := true);
      return true;
    }

    /** Clears the session after a disconnect; the new generation tags the reset work item. */
    method ResetConnection() returns (reset: nat)
      modifies this
      ensures View() == Disconnected(old(View())) && reset == generation
    {
      link := link.(connected := false, authenticated := false, encrypted := false, closing := false, mtuReady := false);
      timing := timing.(closeAttempts := 0, closeRetryDue := 0, stageDeadline := 0, prepareDeadline := 0);
      timing := timing.(retryDue := 0, discoveryAttempt := 0);
      generation := generation + 1;
      reset := generation;
      InvalidateHandles();
    }

    /** Whether a reset work item is owed, and its generation. */
    method HandleServiceChanged(now: int) returns (owed: bool, reset: nat)
      modifies this
      ensures View() == ServiceChanged(old(View()), now) && reset == generation
      ensures owed == AdvancesGeneration(old(View()), ChangeService(now))
    {
      if !link.connected || link.closing {
        return false, generation;
      }
      timing := timing.(prepareDeadline := now + PREPARE_TIMEOUT_MS, retryDue := 0, discoveryAttempt := 0);
      generation := generation + 1;
      InvalidateHandles();
      return true, generation;
    }

    method HandleAuthentication(success: bool, now: int)
      modifies this`link, this`timing
      ensures View() == if success then AuthenticationSucceeded(old(View()), now) else AuthenticationFailed(old(View()))
    {
      if success {
        link := link.(authenticated := true, encrypted := true);
        timing := timing.(stageDeadline := now + DISCOVERY_TIMEOUT_MS);
      } else {
        link := link.(closing := true, authenticated := false, encrypted := false, ready := false);
        timing := timing.(retryDue := 0);
      }
    }

    method BeginDiscovery(registered: bool, now: int) returns (search: bool)
      modifies this`link, this`handles, this`timing
      ensures View() == DiscoveryStarted(old(View()), registered, now) && search == MayDiscover(old(View()), registered)
    {
      if !link.connected || link.closing || !link.authenticated || !link.encrypted || !link.mtuReady
         || link.ready || !registered || link.discovering {
        return false;
      }
      link := link.(ready := false, dataSubscribed := false, notificationSubscribed := false);
      handles := handles.(notificationSource := INVALID_HANDLE, dataSource := INVALID_HANDLE, controlPoint := INVALID_HANDLE);
      handles := handles.(dataCccd := INVALID_HANDLE, notificationCccd := INVALID_HANDLE);
      link := link.(serviceFound := false, discovering := true);
      timing := timing.(retryDue := 0, stageDeadline := now + DISCOVERY_TIMEOUT_MS);
      return true;
    }

    /** The final critical section of the descriptor-write callback for either source. */
    method HandleDescriptorWritten(data: bool) returns (risen: bool)
      modifies this`link, this`timing, this`sessionId
      ensures View() == if data then DataSubscribed(old(View())) else NotificationSubscribed(old(View()))
      ensures risen <==> !old(link.ready) && link.ready
    {
      if data {
        link := link.(dataSubscribed := true);
        return false;
      }
      link := link.(notificationSubscribed := true);
      var ready := link.connected && link.authenticated && link.encrypted && link.serviceFound && link.dataSubscribed;
      risen := ready && !link.ready;
      if risen {
        sessionId := NextSessionId(sessionId);
      }
      link := link.(ready := ready);
      timing := timing.(stageDeadline := 0, retryDue := 0);
    }

    method CheckConnectionDeadline(now: int) returns (close: bool)
      modifies this`link, this`timing
      ensures (View(), close) == DeadlineChecked(old(View()), now)
    {
      var expired := link.connected && !link.ready && !link.closing
                     && ((timing.stageDeadline != 0 && now >= timing.stageDeadline)
                         || (timing.prepareDeadline != 0 && now >= timing.prepareDeadline));
      assert expired == Expired(View(), now);
      if expired {
        link := link.(closing := true, ready := false);
        timing := timing.(retryDue := 0);
      }
      close := link.connected && link.closing && timing.closeAttempts < 3 && now >= timing.closeRetryDue;
      if close {
        timing := timing.(closeAttempts := timing.closeAttempts + 1, closeRetryDue := now + CLOSE_RETRY_MS);
      }
    }

    method ScheduleDiscoveryRetry(now: int)
      modifies this`timing
      ensures View() == RetryScheduled(old(View()), now)
    {
      if !link.connected || link.closing || !link.authenticated || link.discovering || timing.retryDue != 0 {
        return;
      }
      if timing.discoveryAttempt >= DISCOVERY_RETRIES {
        timing := timing.(stageDeadline := now);
        return;
      }
      var delay := if timing.discoveryAttempt == 0 then 2000 else 5000;
      timing := timing.(discoveryAttempt := timing.discoveryAttempt + 1, retryGeneration := generation);
      timing := timing.(retryDue := now + delay);
      timing := timing.(stageDeadline := timing.retryDue + DISCOVERY_TIMEOUT_MS);
    }

    method RecoverStream() returns (disconnect: bool)
      modifies this`link
      ensures View() == StreamRecovering(old(View())) && disconnect == link.connected
    {
      link := link.(ready := false);
      return link.connected;
    }
  }
}
