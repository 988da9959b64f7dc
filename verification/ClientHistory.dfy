/** The progress of a link, told from what happened since it began. */
module ClientHistory {

  // Every flag of the link is a question about the past. A session is ready only
  // if all its stages were passed on the present connection, and after a change
  // of the phone's services once more.

  import opened ClientSession
  import opened Histories

  // ---------- The link ----------

  predicate Connects(past: seq<Section>, s: Section) {
    s.Connect?
  }

  predicate Disconnects(past: seq<Section>, s: Section) {
    s == Section.Disconnect
  }

  ghost predicate Linked(sections: seq<Section>) {
    Holds(sections, Connects, Disconnects)
  }

  /** A link begins: a peer connects while none is. */
  ghost predicate Begins(past: seq<Section>, s: Section) {
    s.Connect? && !Linked(past)
  }

  ghost predicate BeginsOrEnds(past: seq<Section>, s: Section) {
    Begins(past, s) || s == Section.Disconnect
  }

  /** Authentication fails, or a stage is found to be overdue. */
  ghost predicate Closes(past: seq<Section>, s: Section) {
    s == AuthFail || (s.CheckDeadline? && Expired(AfterAll(INITIAL, past), s.now))
  }

  ghost predicate ClosingDown(sections: seq<Section>) {
    Holds(sections, Closes, BeginsOrEnds)
  }

  // ---------- The stages ----------

  predicate Authenticates(past: seq<Section>, s: Section) {
    s.AuthSucceed?
  }

  ghost predicate Deauthenticates(past: seq<Section>, s: Section) {
    BeginsOrEnds(past, s) || s == AuthFail
  }

  ghost predicate Secured(sections: seq<Section>) {
    Holds(sections, Authenticates, Deauthenticates)
  }

  predicate Negotiates(past: seq<Section>, s: Section) {
    s == ConfigureMtu
  }

  ghost predicate Negotiated(sections: seq<Section>) {
    Holds(sections, Negotiates, BeginsOrEnds)
  }

  /** What was discovered is void: another link, another set of services, or an explicit reset. */
  ghost predicate Voids(past: seq<Section>, s: Section) {
    || BeginsOrEnds(past, s) || s == Invalidate
    || (s.ChangeService? && Linked(past) && !ClosingDown(past))
  }

  ghost predicate SearchBegins(past: seq<Section>, s: Section) {
    s.StartDiscovery? && MayDiscover(AfterAll(INITIAL, past), s.registered)
  }

  ghost predicate SearchEnds(past: seq<Section>, s: Section) {
    Voids(past, s) || s == AbortDiscovery || s == CompleteSearch
  }

  ghost predicate Searching(sections: seq<Section>) {
    Holds(sections, SearchBegins, SearchEnds)
  }

  ghost predicate StartsOver(past: seq<Section>, s: Section) {
    Voids(past, s) || SearchBegins(past, s)
  }

  predicate FindsService(past: seq<Section>, s: Section) {
    s.SeeService?
  }

  ghost predicate ServiceKnown(sections: seq<Section>) {
    Holds(sections, FindsService, StartsOver)
  }

  predicate SubscribesData(past: seq<Section>, s: Section) {
    s == SubscribeData
  }

  ghost predicate DataOn(sections: seq<Section>) {
    Holds(sections, SubscribesData, StartsOver)
  }

  predicate SubscribesNotifications(past: seq<Section>, s: Section) {
    s == SubscribeNotifications
  }

  ghost predicate NotificationsOn(sections: seq<Section>) {
    Holds(sections, SubscribesNotifications, StartsOver)
  }

  // ---------- Readiness ----------

  /** The last subscription succeeds on a secured link, with the service found and the data source subscribed. */
  ghost predicate Completes(past: seq<Section>, s: Section) {
    s == SubscribeNotifications && Linked(past) && Secured(past) && ServiceKnown(past) && DataOn(past)
  }

  ghost predicate EndsReadiness(past: seq<Section>, s: Section) {
    Voids(past, s) || s == AuthFail || s == RecoverStream || s == SubscribeNotifications
  }

  ghost predicate ReadyNow(sections: seq<Section>) {
    Holds(sections, Completes, EndsReadiness)
  }

  // ---------- One section ----------

  lemma LinkAfter(c: Client, s: Section)
    ensures var l := After(c, s).link;
            && (l.connected <==> s.Connect? || (c.link.connected && s != Section.Disconnect))
            && (l.mtuReady <==> s == ConfigureMtu || (c.link.mtuReady && !(s.Connect? && !c.link.connected) && s != Section.Disconnect))
  {
    match s
    case CheckDeadline(now) => assert DeadlineChecked(c, now).0.link.connected == c.link.connected;
    case _ =>
  }

  predicate Renews(c: Client, s: Section) {
    (s.Connect? && !c.link.connected) || s == Section.Disconnect
  }

  lemma SecurityAfter(c: Client, s: Section)
    ensures var l := After(c, s).link;
            && (l.authenticated <==> s.AuthSucceed? || (c.link.authenticated && !Renews(c, s) && s != AuthFail))
            && (l.encrypted <==> s.AuthSucceed? || (c.link.encrypted && !Renews(c, s) && s != AuthFail))
  {
    match s
    case CheckDeadline(now) => assert DeadlineChecked(c, now).0.link.authenticated == c.link.authenticated;
    case _ =>
  }

  lemma ClosingAfter(c: Client, s: Section)
    ensures After(c, s).link.closing
        <==> s == AuthFail || (s.CheckDeadline? && Expired(c, s.now)) || (c.link.closing && !Renews(c, s))
  {
    match s
    case CheckDeadline(now) => assert DeadlineChecked(c, now).0.link.closing == (Expired(c, now) || c.link.closing);
    case _ =>
  }

  predicate Resets(c: Client, s: Section) {
    Renews(c, s) || s == Invalidate || (s.ChangeService? && c.link.connected && !c.link.closing)
  }

  predicate Searches(c: Client, s: Section) {
    s.StartDiscovery? && MayDiscover(c, s.registered)
  }

  lemma SearchAfter(c: Client, s: Section)
    ensures After(c, s).link.discovering
        <==> Searches(c, s) || (c.link.discovering && !Resets(c, s) && s != AbortDiscovery && s != CompleteSearch)
  {
    match s
    case CheckDeadline(now) => assert DeadlineChecked(c, now).0.link.discovering == c.link.discovering;
    case _ =>
  }

  lemma ServiceAfter(c: Client, s: Section)
    ensures After(c, s).link.serviceFound
        <==> s.SeeService? || (c.link.serviceFound && !Resets(c, s) && !Searches(c, s))
  {
    match s
    case CheckDeadline(now) => assert DeadlineChecked(c, now).0.link.serviceFound == c.link.serviceFound;
    case _ =>
  }

  lemma SubscriptionsAfter(c: Client, s: Section)
    ensures var l := After(c, s).link;
            && (l.dataSubscribed <==> s == SubscribeData || (c.link.dataSubscribed && !Resets(c, s) && !Searches(c, s)))
            && (l.notificationSubscribed
                <==> s == SubscribeNotifications || (c.link.notificationSubscribed && !Resets(c, s) && !Searches(c, s)))
  {
    match s
    case CheckDeadline(now) => assert DeadlineChecked(c, now).0.link.dataSubscribed == c.link.dataSubscribed;
    case _ =>
  }

  lemma ReadinessAfter(c: Client, s: Section)
    ensures var l := c.link;
            After(c, s).link.ready
            <==> if s == SubscribeNotifications
                 then l.connected && l.authenticated && l.encrypted && l.serviceFound && l.dataSubscribed
                 else l.ready && !Resets(c, s) && s != AuthFail && s != RecoverStream
  {
    match s
    case CheckDeadline(now) => assert DeadlineChecked(c, now).0.link.ready == c.link.ready;
    case _ =>
  }

  // ---------- Every interleaving ----------

  ghost predicate Agrees(l: Link, sections: seq<Section>) {
    && (l.connected <==> Linked(sections)) && (l.closing <==> ClosingDown(sections))
    && (l.authenticated <==> Secured(sections)) && (l.encrypted <==> Secured(sections))
    && (l.mtuReady <==> Negotiated(sections)) && (l.discovering <==> Searching(sections))
    && (l.serviceFound <==> ServiceKnown(sections)) && (l.dataSubscribed <==> DataOn(sections))
    && (l.notificationSubscribed <==> NotificationsOn(sections)) && (l.ready <==> ReadyNow(sections))
  }

  lemma StagesStep(past: seq<Section>, s: Section)
    ensures Linked(past + [s]) <==> Connects(past, s) || (Linked(past) && !Disconnects(past, s))
    ensures ClosingDown(past + [s]) <==> Closes(past, s) || (ClosingDown(past) && !BeginsOrEnds(past, s))
    ensures Secured(past + [s]) <==> Authenticates(past, s) || (Secured(past) && !Deauthenticates(past, s))
    ensures Negotiated(past + [s]) <==> Negotiates(past, s) || (Negotiated(past) && !BeginsOrEnds(past, s))
    ensures Searching(past + [s]) <==> SearchBegins(past, s) || (Searching(past) && !SearchEnds(past, s))
  {
    HoldsStep(past, s, Connects, Disconnects);
    HoldsStep(past, s, Closes, BeginsOrEnds);
    HoldsStep(past, s, Authenticates, Deauthenticates);
    HoldsStep(past, s, Negotiates, BeginsOrEnds);
    HoldsStep(past, s, SearchBegins, SearchEnds);
  }

  lemma ServicesStep(past: seq<Section>, s: Section)
    ensures ServiceKnown(past + [s]) <==> FindsService(past, s) || (ServiceKnown(past) && !StartsOver(past, s))
    ensures DataOn(past + [s]) <==> SubscribesData(past, s) || (DataOn(past) && !StartsOver(past, s))
    ensures NotificationsOn(past + [s]) <==> SubscribesNotifications(past, s) || (NotificationsOn(past) && !StartsOver(past, s))
    ensures ReadyNow(past + [s]) <==> Completes(past, s) || (ReadyNow(past) && !EndsReadiness(past, s))
  {
    HoldsStep(past, s, FindsService, StartsOver);
    HoldsStep(past, s, SubscribesData, StartsOver);
    HoldsStep(past, s, SubscribesNotifications, StartsOver);
    HoldsStep(past, s, Completes, EndsReadiness);
  }

  lemma StepAgrees(past: seq<Section>, s: Section)
    requires Agrees(AfterAll(INITIAL, past).link, past)
    ensures Agrees(After(AfterAll(INITIAL, past), s).link, past + [s])
  {
    hide Linked, ClosingDown, Secured, Negotiated, Searching, ServiceKnown, DataOn, NotificationsOn, ReadyNow;
    hide After, AfterAll, Expired, MayDiscover;
    var c := AfterAll(INITIAL, past);
    StagesStep(past, s);
    ServicesStep(past, s);
    LinkAfter(c, s);
    SecurityAfter(c, s);
    ClosingAfter(c, s);
    SearchAfter(c, s);
    ServiceAfter(c, s);
    SubscriptionsAfter(c, s);
    ReadinessAfter(c, s);
  }

  lemma NothingAgrees()
    ensures Agrees(INITIAL.link, [])
  {
    NothingHolds(Connects, Disconnects);
    NothingHolds(Closes, BeginsOrEnds);
    NothingHolds(Authenticates, Deauthenticates);
    NothingHolds(Negotiates, BeginsOrEnds);
    NothingHolds(SearchBegins, SearchEnds);
    NothingHolds(FindsService, StartsOver);
    NothingHolds(SubscribesData, StartsOver);
    NothingHolds(SubscribesNotifications, StartsOver);
    NothingHolds(Completes, EndsReadiness);
  }

  lemma {:induction false} FlagsAgree(sections: seq<Section>)
    ensures Agrees(AfterAll(INITIAL, sections).link, sections)
    decreases |sections|
  {
    hide After, Agrees;
    if sections == [] {
      NothingAgrees();
    } else {
      var past, s := sections[..|sections| - 1], sections[|sections| - 1];
      FlagsAgree(past);
      StepAgrees(past, s);
      assert sections == past + [s];
    }
  }

  /**
   * In every interleaving the session is ready if and only if the last
   * subscription succeeded with every earlier stage passed on this link, and
   * nothing has ended readiness since.
   */
  lemma ReadyIff(sections: seq<Section>)
    ensures AfterAll(INITIAL, sections).link.ready <==> ReadyNow(sections)
  {
    FlagsAgree(sections);
    hide AfterAll, ReadyNow, Linked, ClosingDown, Secured, Negotiated, Searching, ServiceKnown, DataOn, NotificationsOn;
  }

  /** In every interleaving each stage of the link is what happened since the link began. */
  lemma StagesIff(sections: seq<Section>)
    ensures var l := AfterAll(INITIAL, sections).link;
            && (l.connected <==> Linked(sections)) && (l.closing <==> ClosingDown(sections))
            && (l.authenticated <==> Secured(sections)) && (l.encrypted <==> Secured(sections))
            && (l.mtuReady <==> Negotiated(sections)) && (l.discovering <==> Searching(sections))
            && (l.serviceFound <==> ServiceKnown(sections)) && (l.dataSubscribed <==> DataOn(sections))
  {
    FlagsAgree(sections);
    hide AfterAll, ReadyNow, Linked, ClosingDown, Secured, Negotiated, Searching, ServiceKnown, DataOn, NotificationsOn;
  }

  // ---------- Generations ----------

  /** A connection begins or ends, or the phone changes its services while the link is open. */
  ghost predicate Renewal(past: seq<Section>, s: Section) {
    BeginsOrEnds(past, s) || (s.ChangeService? && Linked(past) && !ClosingDown(past))
  }

  ghost function Renewals(sections: seq<Section>): nat {
    if sections == [] then 0
    else
      var past, s := sections[..|sections| - 1], sections[|sections| - 1];
      Renewals(past) + (if Renewal(past, s) then 1 else 0)
  }

  /** In every interleaving the generation counts the connections, disconnections and changes of services. */
  lemma {:induction false} GenerationCounts(sections: seq<Section>)
    ensures AfterAll(INITIAL, sections).generation == Renewals(sections)
    decreases |sections|
  {
    hide After, Linked, ClosingDown;
    if sections != [] {
      var past, s := sections[..|sections| - 1], sections[|sections| - 1];
      GenerationCounts(past);
      StagesIff(past);
      SectionAdvancesGeneration(AfterAll(INITIAL, past), s);
    }
  }

  // ---------- Discovery is retried ----------

  ghost predicate Retries(past: seq<Section>, s: Section) {
    var c := AfterAll(INITIAL, past);
    s.ScheduleRetry? && MayRetry(c) && c.timing.discoveryAttempt < 2
  }

  predicate MayRetry(c: Client) {
    && c.link.connected && !c.link.closing && c.link.authenticated && !c.link.discovering
    && c.timing.retryDue == 0
  }

  /** The characteristics of the service that is still the current one are found. */
  ghost predicate Succeeds(past: seq<Section>, s: Section) {
    var c := AfterAll(INITIAL, past);
    && s.FindCharacteristics? && c.link.connected && c.generation == s.generation
    && c.handles.serviceStart == s.serviceStart && c.handles.serviceEnd == s.serviceEnd
  }

  /** How often discovery was retried since the link or its services were new, or since it succeeded. */
  ghost function RetriesSince(sections: seq<Section>): nat {
    if sections == [] then 0
    else
      var past, s := sections[..|sections| - 1], sections[|sections| - 1];
      if Renewal(past, s) || Succeeds(past, s) then 0
      else RetriesSince(past) + (if Retries(past, s) then 1 else 0)
  }

  lemma AttemptAfter(c: Client, s: Section)
    ensures After(c, s).timing.discoveryAttempt
         == if AdvancesGeneration(c, s) then 0
            else if s.FindCharacteristics? && c.link.connected && c.generation == s.generation
                    && c.handles.serviceStart == s.serviceStart && c.handles.serviceEnd == s.serviceEnd then 0
            else if s.ScheduleRetry? && MayRetry(c) && c.timing.discoveryAttempt < 2 then c.timing.discoveryAttempt + 1
            else c.timing.discoveryAttempt
  {
    match s
    case CheckDeadline(now) => assert DeadlineChecked(c, now).0.timing.discoveryAttempt == c.timing.discoveryAttempt;
    case _ =>
  }

  lemma {:induction false} RetriesAreCounted(sections: seq<Section>)
    ensures AfterAll(INITIAL, sections).timing.discoveryAttempt == RetriesSince(sections)
    decreases |sections|
  {
    hide After, Linked, ClosingDown, MayRetry;
    if sections != [] {
      var past, s := sections[..|sections| - 1], sections[|sections| - 1];
      RetriesAreCounted(past);
      StagesIff(past);
      AttemptAfter(AfterAll(INITIAL, past), s);
    }
  }

  /**
   * In every interleaving a failed discovery is retried after two seconds and
   * the next one after five; after a third failure the link is overdue at once.
   */
  lemma RetryIsDueAfter(sections: seq<Section>, now: int, t: int)
    requires now > 0 && MayRetry(AfterAll(INITIAL, sections)) && !AfterAll(INITIAL, sections).link.ready
    ensures var c, n := RetryScheduled(AfterAll(INITIAL, sections), now), RetriesSince(sections);
            && (n == 0 ==> (RetryIsDue(c, t) <==> t >= now + 2000))
            && (n == 1 ==> (RetryIsDue(c, t) <==> t >= now + 5000))
            && (n >= 2 ==> !RetryIsDue(c, t) && Expired(c, now))
  {
    RetriesAreCounted(sections);
    hide AfterAll, RetriesSince;
  }
}
