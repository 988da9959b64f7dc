/** What becomes of every request, told from what happens to the worker alone. */
module RequestFates {

  // An observer sees what the worker is told and how its writes end. It keeps
  // its own account of the request that waits for an answer and of how earlier
  // ones ended, and the worker's records agree with it over every history.

  import opened RequestQueue
  import opened ClientWorker
  import opened Wrappers

  /** The app's name is optional: a request that only lacks it is complete. */
  datatype Ending = Answered | NameMissing | Unanswered | Drained | SessionGone

  /** A request that waits: what it asks for, whether it may be repeated, and until when it waits. */
  datatype Waiting = Waiting(
    stage: Kind,
    spare: bool,
    canceled: bool,
    event: Event,
    due: int,
    writes: nat,
    nameWrites: nat)

  datatype Fate = Fate(ending: Ending, last: Waiting)

  datatype Watch = Watch(
    waiting: Option<Waiting>,
    previous: Option<Event>,
    previousMs: int,
    fates: seq<Fate>,
    recoveries: nat)

  const NOTHING: Watch := Watch(None, None, 0, [], 0)

  // ---------- The observer ----------

  predicate IsPublished(ending: Ending) {
    ending == Answered || ending == NameMissing
  }

  function Over(w: Watch, q: Waiting, ending: Ending, recovers: bool): Watch {
    w.(waiting := None, fates := w.fates + [Fate(ending, q)], recoveries := w.recoveries + (if recovers then 1 else 0))
  }

  /** A write that reaches the stack is counted; one that is sent is waited for three seconds. */
  function Written(q: Waiting, outcome: Outcome, now: int): Waiting {
    var q1 := if outcome.Sent? then q.(due := now + 3000) else q;
    if outcome.Unencodable? || outcome.NotValid? then q1
    else if q.stage == AppAttributes then q1.(nameWrites := q.nameWrites + 1)
    else q1.(writes := q.writes + 1)
  }

  predicate NoSession(outcome: Outcome) {
    outcome == NotValid || outcome == Refused(true)
  }

  /** Nothing can be tried any more; without attributes there is nothing to publish, and the stream is recovered. */
  function Lacking(w: Watch, q: Waiting, recovers: bool): Watch {
    if q.stage == AppAttributes then Over(w, q, NameMissing, recovers) else Over(w, q, Unanswered, true)
  }

  function TriedAgain(w: Watch, q: Waiting, env: Env, recovers: bool): Watch {
    if !env.ready then Over(w, q, SessionGone, false)
    else if !q.spare then Lacking(w, q, recovers)
    else
      var q1 := Written(q, env.second, env.now).(spare := false);
      if env.second.Sent? then w.(waiting := Some(q1))
      else if NoSession(env.second) then Over(w, q1, SessionGone, false)
      else Lacking(w, q1, recovers)
  }

  function Tried(w: Watch, q: Waiting, env: Env): Watch {
    var q1 := Written(q, env.first, env.now);
    if env.first.Sent? then w.(waiting := Some(q1))
    else if NoSession(env.first) then Over(w, q1, SessionGone, false)
    else TriedAgain(w, q1, env, false)
  }

  /** The same event within half a second. */
  predicate Repeats(w: Watch, event: Event, now: int) {
    && w.previous.Some? && now - w.previousMs <= 500
    && w.previous.value.(categoryId := event.categoryId) == event
  }

  function Observed(w: Watch, op: Operation): Watch {
    match op
    case Start(event, env) =>
      if w.waiting.Some? then w else Tried(w, Waiting(NotificationAttributes, true, false, event, 0, 0, 0), env)
    case Fragment(result, request, env) =>
      if w.waiting.None? || result == More then w
      else
        var q := w.waiting.value;
        if q.canceled then Over(w, q, Drained, false)
        else if result == Error then TriedAgain(w, q, env, true)
        else if request && q.stage == NotificationAttributes then
          Tried(w, q.(stage := AppAttributes, spare := true), env)
        else Over(w, q, Answered, false)
    case WriteResult(ok, env) =>
      if w.waiting.None? || ok then w
      else if w.waiting.value.canceled then Over(w, w.waiting.value, Drained, false)
      else TriedAgain(w, w.waiting.value, env, false)
    case CheckDeadline(now, env) =>
      if w.waiting.None? || now < w.waiting.value.due then w
      else if w.waiting.value.canceled then Over(w, w.waiting.value, Drained, true)
      else TriedAgain(w, w.waiting.value, env, true)
    case Receive(event, now) =>
      var w1 := w.(previous := Some(event), previousMs := now);
      if w.waiting.Some? && w.waiting.value.event.uid == event.uid && event.eventId == 2 && !Repeats(w, event, now)
      then w1.(waiting := Some(w.waiting.value.(canceled := true))) else w1
    case Reset =>
      (if w.waiting.None? then w else Over(w, w.waiting.value, SessionGone, false)).(previous := None)
  }

  function ObservedAll(w: Watch, ops: seq<Operation>): Watch {
    if ops == [] then w else Observed(ObservedAll(w, ops[..|ops| - 1]), ops[|ops| - 1])
  }

  // ---------- The worker agrees ----------

  /** What the record of a request says, given how it ended. */
  ghost predicate Tells(r: Record, f: Fate) {
    && r.published == (if IsPublished(f.ending) then 1 else 0)
    && r.failed == (if f.ending == Unanswered then 1 else 0)
    && r.canceled == f.last.canceled
    && r.parsed == (f.last.stage == AppAttributes || f.ending == Answered)
    && r.writes == f.last.writes && r.appWrites == f.last.nameWrites
    && (f.ending == Drained ==> f.last.canceled)
  }

  ghost predicate Waits(s: Session, q: Waiting) {
    && s.kind == q.stage && s.canceled == q.canceled && s.event == q.event
    && s.attempt == (if q.spare then 0 else 1)
    && s.record == Record(q.writes, q.nameWrites, q.stage == AppAttributes, q.canceled, 0, 0)
  }

  ghost predicate Past(s: Session, w: Watch) {
    && s.last == w.previous && s.lastMs == w.previousMs && s.recoveries == w.recoveries
    && |s.past| == |w.fates|
    && forall i :: 0 <= i < |s.past| ==> Tells(s.past[i], w.fates[i])
  }

  ghost predicate Agrees(s: Session, w: Watch) {
    && Past(s, w)
    && (s.active <==> w.waiting.Some?)
    && (if s.active then Waits(s, w.waiting.value) && s.deadline == w.waiting.value.due else !s.canceled)
  }

  lemma EndingsAgree(s: Session, w: Watch, q: Waiting, ending: Ending, t: Session, recovers: bool)
    requires Past(s, w)
    requires t.past == s.past + [t.record] && Tells(t.record, Fate(ending, q)) && !t.active && !t.canceled
    requires t.last == s.last && t.lastMs == s.lastMs && t.recoveries == s.recoveries + (if recovers then 1 else 0)
    ensures Agrees(t, Over(w, q, ending, recovers))
  {
    hide Tells;
  }

  lemma GivingUpAgrees(s: Session, w: Watch, q: Waiting, recovers: bool)
    requires s.active && Past(s, w) && Waits(s, q) && !q.canceled
    ensures Agrees(GivenUp(s, recovers), Lacking(w, q, recovers))
  {
    hide Past;
    if q.stage == AppAttributes {
      EndingsAgree(s, w, q, NameMissing, GivenUp(s, recovers), recovers);
    } else {
      EndingsAgree(s, w, q, Unanswered, GivenUp(s, recovers), true);
    }
  }

  lemma LosingAgrees(s: Session, w: Watch, q: Waiting)
    requires s.active && Past(s, w) && Waits(s, q)
    ensures Agrees(Closed(s), Over(w, q, SessionGone, false))
    ensures q.canceled ==> Agrees(Closed(s), Over(w, q, Drained, false))
  {
    hide Past;
    EndingsAgree(s, w, q, SessionGone, Closed(s), false);
    if q.canceled {
      EndingsAgree(s, w, q, Drained, Closed(s), false);
    }
  }

  lemma WritingAgrees(s: Session, w: Watch, q: Waiting, outcome: Outcome, now: int)
    requires Past(s, w) && Waits(s, q)
    ensures Past(Wrote(s, outcome, now), w) && Waits(Wrote(s, outcome, now), Written(q, outcome, now))
    ensures outcome.Sent? ==> Wrote(s, outcome, now).deadline == Written(q, outcome, now).due
    ensures Wrote(s, outcome, now).active == s.active
    ensures Written(q, outcome, now).(due := 0, writes := 0, nameWrites := 0) == q.(due := 0, writes := 0, nameWrites := 0)
  {
    hide Tells;
  }

  lemma WaitingAgrees(s: Session, w: Watch, q: Waiting)
    requires s.active && Past(s, w) && Waits(s, q) && s.deadline == q.due
    ensures Agrees(s, w.(waiting := Some(q)))
  {
    hide Tells;
  }

  lemma RetryAgrees(s: Session, w: Watch, q: Waiting, env: Env, recovers: bool)
    requires s.active && Past(s, w) && Waits(s, q) && !q.canceled
    ensures Agrees(RetriedOrFinished(s, env, recovers), TriedAgain(w, q, env, recovers))
  {
    hide Past, Lacking, GivenUp, Wrote, Written, Over, Closed;
    if !env.ready {
      LosingAgrees(s, w, q);
    } else if !q.spare {
      GivingUpAgrees(s, w, q, recovers);
    } else {
      var s0, q0 := s.(attempt := 1), q.(spare := false);
      AttemptAgrees(s, w, q);
      WritingAgrees(s0, w, q0, env.second, env.now);
      var s1, q1 := Wrote(s0, env.second, env.now), Written(q, env.second, env.now).(spare := false);
      assert q1 == Written(q0, env.second, env.now) by {
        SparingCommutes(q, env.second, env.now);
      }
      if env.second.Sent? {
        WaitingAgrees(s1, w, q1);
      } else if NoSession(env.second) {
        LosingAgrees(s1, w, q1);
      } else {
        GivingUpAgrees(s1, w, q1, recovers);
      }
    }
  }

  lemma AttemptAgrees(s: Session, w: Watch, q: Waiting)
    requires Past(s, w) && Waits(s, q)
    ensures Past(s.(attempt := 1), w) && Waits(s.(attempt := 1), q.(spare := false))
  {
    hide Tells;
  }

  lemma SparingCommutes(q: Waiting, outcome: Outcome, now: int)
    ensures Written(q, outcome, now).(spare := false) == Written(q.(spare := false), outcome, now)
  {
  }

  /** A stage that begins: the session and the observer's request before the first write. */
  lemma StageAgrees(s: Session, w: Watch, q: Waiting, env: Env)
    requires s.active && Past(s, w) && Waits(s.(kind := q.stage, attempt := 0), q) && q.spare && !q.canceled
    ensures Agrees(StageBegun(s, q.stage, env), Tried(w, q, env))
  {
    hide Past, Wrote, Written, Over, Closed, TriedAgain, RetriedOrFinished;
    var s0 := s.(kind := q.stage, attempt := 0);
    assert Past(s0, w) by {
      KindAgrees(s, w, q.stage);
    }
    WritingAgrees(s0, w, q, env.first, env.now);
    var s1, q1 := Wrote(s0, env.first, env.now), Written(q, env.first, env.now);
    if env.first.Sent? {
      WaitingAgrees(s1, w, q1);
    } else if NoSession(env.first) {
      LosingAgrees(s1, w, q1);
    } else {
      RetryAgrees(s1, w, q1, env, false);
    }
  }

  lemma KindAgrees(s: Session, w: Watch, kind: Kind)
    requires Past(s, w)
    ensures Past(s.(kind := kind, attempt := 0), w)
  {
    hide Tells;
  }

  lemma FragmentAgrees(s: Session, w: Watch, result: ParserResult, request: bool, env: Env)
    requires Agrees(s, w)
    ensures Agrees(After(s, Fragment(result, request, env)), Observed(w, Fragment(result, request, env)))
  {
    hide Past, RetriedOrFinished, TriedAgain, StageBegun, Tried;
    if s.active && result != More {
      var q := w.waiting.value;
      var s1 := s.(record := s.record.(parsed := true));
      if q.canceled {
        LosingAgrees(s, w, q);
      } else if result == Error {
        RetryAgrees(s, w, q, env, true);
      } else if request && q.stage == NotificationAttributes {
        assert Past(s1, w) by {
          RecordAgrees(s, w, s1.record);
        }
        StageAgrees(s1, w, q.(stage := AppAttributes, spare := true), env);
      } else if q.stage == AppAttributes {
        EndingsAgree(s, w, q, Answered, Published(s), false);
      } else {
        EndingsAgree(s, w, q, Answered, Published(s1), false);
      }
    }
  }

  lemma RecordAgrees(s: Session, w: Watch, record: Record)
    requires Past(s, w)
    ensures Past(s.(record := record), w)
  {
    hide Tells;
  }

  lemma StartAgrees(s: Session, w: Watch, event: Event, env: Env)
    requires Agrees(s, w) && !s.active
    ensures Agrees(After(s, Start(event, env)), Observed(w, Start(event, env)))
  {
    hide Tells, StageBegun, Tried;
    StageAgrees(s.(active := true, canceled := false, event := event, taken := s.taken + 1, record := BLANK), w,
                Waiting(NotificationAttributes, true, false, event, 0, 0, 0), env);
  }

  lemma ReceivingAgrees(s: Session, w: Watch, event: Event, now: int)
    requires Agrees(s, w)
    ensures Agrees(After(s, Receive(event, now)), Observed(w, Receive(event, now)))
  {
    hide Tells;
  }

  lemma ResetAgrees(s: Session, w: Watch)
    requires Agrees(s, w)
    ensures Agrees(After(s, Reset), Observed(w, Reset))
  {
    hide Tells;
    if s.active {
      LosingAgrees(s, w, w.waiting.value);
    }
  }

  lemma StepAgrees(s: Session, w: Watch, op: Operation)
    requires Agrees(s, w)
    ensures Agrees(After(s, op), Observed(w, op))
  {
    hide Past, RetriedOrFinished, TriedAgain, FragmentHandled, Closed, Over;
    match op
    case Start(event, env) =>
      if !s.active {
        StartAgrees(s, w, event, env);
      }
    case Fragment(result, request, env) => FragmentAgrees(s, w, result, request, env);
    case WriteResult(ok, env) =>
      if !s.active {
        NothingToRetry(s, env);
      } else if !ok {
        if s.canceled {
          LosingAgrees(s, w, w.waiting.value);
        } else {
          RetryAgrees(s, w, w.waiting.value, env, false);
        }
      }
    case CheckDeadline(now, env) =>
      if s.active && now >= s.deadline {
        if s.canceled {
          ExpiryAgrees(s, w, w.waiting.value);
        } else {
          RetryAgrees(s, w, w.waiting.value, env, true);
        }
      }
    case Receive(event, now) => ReceivingAgrees(s, w, event, now);
    case Reset => ResetAgrees(s, w);
  }

  lemma NothingToRetry(s: Session, env: Env)
    requires !s.active
    ensures RetriedOrFinished(s, env, false) == s
  {
  }

  lemma ExpiryAgrees(s: Session, w: Watch, q: Waiting)
    requires s.active && Past(s, w) && Waits(s, q) && q.canceled
    ensures Agrees(Recovering(Closed(s)), Over(w, q, Drained, true))
  {
    hide Past;
    EndingsAgree(s, w, q, Drained, Recovering(Closed(s)), true);
  }

  lemma {:induction false} WorkerAgrees(ops: seq<Operation>)
    ensures Agrees(AfterAll(IDLE, ops), ObservedAll(NOTHING, ops))
    decreases |ops|
  {
    hide After, Observed, Agrees;
    if ops == [] {
      assert Agrees(IDLE, NOTHING) by {
        IdleAgrees();
      }
    } else {
      WorkerAgrees(ops[..|ops| - 1]);
      StepAgrees(AfterAll(IDLE, ops[..|ops| - 1]), ObservedAll(NOTHING, ops[..|ops| - 1]), ops[|ops| - 1]);
    }
  }

  lemma IdleAgrees()
    ensures Agrees(IDLE, NOTHING)
  {
  }

  /**
   * Over every history, a request that is over was published, once, if and only
   * if it was answered completely or only the app's name was given up, and was
   * reported as failed if and only if its attributes were; every other one was
   * cancelled or lost its session. It was written as often as the observer
   * counted, for the app's name only where that was asked for.
   */
  lemma RequestsEndAsObserved(ops: seq<Operation>)
    ensures var past, fates := AfterAll(IDLE, ops).past, ObservedAll(NOTHING, ops).fates;
            && |past| == |fates|
            && forall i :: 0 <= i < |past| ==>
                 && past[i].published == (if fates[i].ending == Answered || fates[i].ending == NameMissing then 1 else 0)
                 && past[i].failed == (if fates[i].ending == Unanswered then 1 else 0)
                 && (past[i].published + past[i].failed == 0 ==> past[i].canceled || fates[i].ending == SessionGone)
                 && past[i].writes == fates[i].last.writes && past[i].appWrites == fates[i].last.nameWrites
    ensures AfterAll(IDLE, ops).recoveries == ObservedAll(NOTHING, ops).recoveries
  {
    WorkerAgrees(ops);
    hide AfterAll, ObservedAll;
  }

  /** Over every history, what the worker waits for is what the observer says, and until the same time. */
  lemma WaitsAsObserved(ops: seq<Operation>)
    ensures var s, w := AfterAll(IDLE, ops), ObservedAll(NOTHING, ops);
            && (s.active <==> w.waiting.Some?)
            && (s.active ==>
                  && s.kind == w.waiting.value.stage && s.canceled == w.waiting.value.canceled
                  && s.event == w.waiting.value.event && s.deadline == w.waiting.value.due)
  {
    WorkerAgrees(ops);
    hide AfterAll, ObservedAll;
  }
}
