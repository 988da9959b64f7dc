/** The two-slot configuration store on non-volatile memory. */
module SlotStore {

  // Every write can fail or be cut short by a power loss, and a write is certain
  // to be durable only after a commit that succeeded.

  import opened ProvisionBlob
  import opened Wrappers

  datatype Key = A | B

  /** A slot that decodes. A missing, torn or foreign slot is None. */
  datatype Saved = Saved(config: Config, generation: nat)

  /** What the memory holds: two slots and the active marker. */
  datatype Image = Image(a: Option<Saved>, b: Option<Saved>, active: Option<Key>)

  const MAX_GENERATION: nat := 0xFFFF_FFFF

  const BLANK: Image := Image(None, None, None)

  function Slot(v: Image, key: Key): Option<Saved> {
    if key == A then v.a else v.b
  }

  function WithSlot(v: Image, key: Key, saved: Option<Saved>): Image {
    if key == A then v.(a := saved) else v.(b := saved)
  }

  function Other(key: Key): Key {
    if key == B then A else B
  }

  // ---------- Selection ----------

  /** The decodable slot with the highest generation; slot B wins a tie. */
  function Best(v: Image): Option<Key> {
    if v.a.None? && v.b.None? then None
    else if v.b.None? then Some(A)
    else if v.a.None? || v.b.value.generation >= v.a.value.generation then Some(B)
    else Some(A)
  }

  /** The slot in use: the one the active marker names if it decodes, else the best one. */
  function Live(v: Image): Option<Key> {
    if v.active.Some? && Slot(v, v.active.value).Some? then v.active else Best(v)
  }

  lemma SelectedSlotsDecode(v: Image)
    ensures Best(v).Some? ==> Slot(v, Best(v).value).Some?
    ensures Live(v).Some? ==> Slot(v, Live(v).value).Some?
    ensures Best(v).Some? <==> Live(v).Some?
    ensures Best(v).None? <==> v.a.None? && v.b.None?
    ensures forall key :: Slot(v, key).Some? ==> Slot(v, key).value.generation <= Newest(v)
  {
  }

  function Load(v: Image): Option<Config> {
    if Live(v).None? then None else Some(Slot(v, Live(v).value).value.config)
  }

  function Newest(v: Image): nat {
    if Best(v).None? then 0 else Slot(v, Best(v).value).value.generation
  }

  /** The active marker names the newest decodable slot. */
  predicate Settled(v: Image) {
    Best(v) == v.active || Best(v).None?
  }

  // ---------- Saving ----------

  datatype Operation = SetActive(key: Key) | SetSlot(key: Key, saved: Saved) | Commit | ReadBack

  /** An operation succeeds, fails having had that much of its effect, or never returns. */
  datatype Fate = Done | Failed(effects: nat) | PowerLost

  datatype Status = Success | InvalidState | InvalidConfig | StorageError | Lost

  function NextGeneration(generation: nat): nat {
    (generation + 1) % 0x1_0000_0000
  }

  /** Before a save, an active marker that does not name the best slot is moved there. */
  function Repair(v: Image): seq<Operation> {
    if Settled(v) then [] else [SetActive(Best(v).value), Commit]
  }

  /** After the repair the best slot is live; the other one is written, and then becomes active. */
  function Write(v: Image, config: Config): seq<Operation> {
    var key := if Best(v).None? then A else Other(Best(v).value);
    var generation := if Best(v).None? then 1 else NextGeneration(Newest(v));
    [SetSlot(key, Saved(config.(schema := SCHEMA), generation)), Commit, ReadBack, SetActive(key), Commit]
  }

  predicate Refused(v: Image) {
    Live(v).Some? && Slot(v, Live(v).value).value.generation == MAX_GENERATION
  }

  /** What the memory reads after an operation that succeeds. */
  function After(v: Image, op: Operation): Image {
    match op
    case SetActive(key) => v.(active := Some(key))
    case SetSlot(key, saved) => WithSlot(v, key, Some(saved))
    case Commit => v
    case ReadBack => v
  }

  /** What an operation makes possibly durable; a slot can be caught half written, which does not decode. */
  function Attempts(v: Image, op: Operation): seq<Image> {
    if op.SetSlot? then [WithSlot(v, op.key, None), After(v, op)]
    else if op.SetActive? then [After(v, op)]
    else []
  }

  function Partly(attempts: seq<Image>, effects: nat): seq<Image> {
    if effects <= |attempts| then attempts[..effects] else attempts
  }

  /** Runs the operations until one does not succeed; only a commit settles what is durable. */
  function Execute(images: seq<Image>, ops: seq<Operation>, fates: seq<Fate>): (r: (seq<Image>, Status))
    requires images != []
    ensures r.0 != []
    decreases |ops|
  {
    if ops == [] then (images, Success)
    else
      var v := images[|images| - 1];
      if fates == [] || fates[0] == PowerLost then (images + Attempts(v, ops[0]), Lost)
      else if fates[0] == Done then
        Execute(if ops[0] == Commit then [v] else images + Attempts(v, ops[0]), ops[1..], fates[1..])
      else (images + Partly(Attempts(v, ops[0]), fates[0].effects), StorageError)
  }

  /** The durable candidates after one save, the last being what a later read sees, and the status. */
  function Save(images: seq<Image>, config: Config, fates: seq<Fate>): (r: (seq<Image>, Status))
    requires images != [] && Shaped(config)
    ensures r.0 != []
  {
    var v := images[|images| - 1];
    if Refused(v) then (images, InvalidState)
    else if Validate(config) == Accepted then Execute(images, Repair(v) + Write(v, config), fates)
    else
      var r := Execute(images, Repair(v), fates);
      (r.0, if r.1 == Success then InvalidConfig else r.1)
  }

  // ---------- One save ----------

  /** Everything that can become durable while the operations run. */
  ghost function Trail(v: Image, ops: seq<Operation>): seq<Image>
    decreases |ops|
  {
    if ops == [] then [] else Attempts(v, ops[0]) + Trail(After(v, ops[0]), ops[1..])
  }

  ghost function Final(v: Image, ops: seq<Operation>): Image
    decreases |ops|
  {
    if ops == [] then v else Final(After(v, ops[0]), ops[1..])
  }

  /** Wherever the operations stop, the memory holds an image from before or from their trail. */
  lemma {:induction false} ExecuteStaysOnTrail(images: seq<Image>, ops: seq<Operation>, fates: seq<Fate>)
    requires images != []
    ensures var v := images[|images| - 1];
            var r := Execute(images, ops, fates);
            && (forall w <- r.0 :: w in images || w in Trail(v, ops))
            && (r.1 == Success ==> r.0[|r.0| - 1] == Final(v, ops))
            && (r.1 == Success && ops != [] && ops[|ops| - 1] == Commit ==> |r.0| == 1)
    decreases |ops|
  {
    if ops != [] && fates != [] && fates[0] == Done {
      var v := images[|images| - 1];
      var next := if ops[0] == Commit then [v] else images + Attempts(v, ops[0]);
      assert next[|next| - 1] == After(v, ops[0]);
      ExecuteStaysOnTrail(next, ops[1..], fates[1..]);
    }
  }

  /** Where a save starts from once the marker is repaired. */
  ghost function Repaired(v: Image): Image {
    if Settled(v) then v else v.(active := Best(v))
  }

  ghost function SlotToWrite(v: Image): Key {
    if Best(v).None? then A else Other(Best(v).value)
  }

  ghost function ToWrite(v: Image, config: Config): Saved {
    Saved(config.(schema := SCHEMA), if Best(v).None? then 1 else NextGeneration(Newest(v)))
  }

  ghost function Torn(v: Image): Image {
    WithSlot(Repaired(v), SlotToWrite(v), None)
  }

  ghost function Rewritten(v: Image, config: Config): Image {
    WithSlot(Repaired(v), SlotToWrite(v), Some(ToWrite(v, config)))
  }

  ghost function Written(v: Image, config: Config): Image {
    Rewritten(v, config).(active := Some(SlotToWrite(v)))
  }

  /** What a save can make durable. */
  ghost predicate Outcome(v: Image, config: Config, w: Image) {
    w == Repaired(v) || w == Torn(v) || w == Rewritten(v, config) || w == Written(v, config)
  }

  lemma TrailOfWrite(v: Image, config: Config)
    ensures Trail(Repaired(v), Write(v, config)) == [Torn(v), Rewritten(v, config), Written(v, config)]
    ensures Final(Repaired(v), Write(v, config)) == Written(v, config)
  {
    hide Best, Settled, Repaired, NextGeneration;
    var ops := Write(v, config);
    assert ops[1..] == [Commit, ReadBack, ops[3], Commit];
    assert ops[1..][1..] == [ReadBack, ops[3], Commit];
    assert ops[1..][1..][1..] == [ops[3], Commit];
    assert ops[1..][1..][1..][1..] == [Commit];
    assert ops[1..][1..][1..][1..][1..] == [];
    var w := Rewritten(v, config);
    assert Trail(Written(v, config), [Commit]) == [];
    assert Trail(w, [ops[3], Commit]) == [Written(v, config)];
    assert Trail(w, [Commit, ReadBack, ops[3], Commit]) == [Written(v, config)];
    assert Final(w, [ops[3], Commit]) == Final(Written(v, config), [Commit]) == Written(v, config);
    assert Final(w, [Commit, ReadBack, ops[3], Commit]) == Written(v, config);
  }

  lemma {:induction false} TrailAppend(v: Image, a: seq<Operation>, b: seq<Operation>)
    ensures Trail(v, a + b) == Trail(v, a) + Trail(Final(v, a), b) && Final(v, a + b) == Final(Final(v, a), b)
    decreases |a|
  {
    if a == [] {
      assert a + b == b;
    } else {
      assert (a + b)[1..] == a[1..] + b;
      TrailAppend(After(v, a[0]), a[1..], b);
    }
  }

  lemma TrailOfRepair(v: Image)
    ensures forall w <- Trail(v, Repair(v)) :: w == Repaired(v)
    ensures Final(v, Repair(v)) == Repaired(v)
  {
    var ops := Repair(v);
    if ops != [] {
      assert ops[1..] == [Commit] && ops[1..][1..] == [];
      assert Trail(Repaired(v), [Commit]) == [] && Final(Repaired(v), [Commit]) == Repaired(v);
    }
  }

  /** Every candidate after a save was one before it or is a possible outcome; a success leaves exactly the written image. */
  lemma SaveOutcomes(images: seq<Image>, config: Config, fates: seq<Fate>)
    requires images != [] && Shaped(config)
    ensures var v := images[|images| - 1];
            var r := Save(images, config, fates);
            && (forall w <- r.0 :: w in images || (!Refused(v) && Outcome(v, config, w)))
            && (r.1 == Success ==> !Refused(v) && r.0 == [Written(v, config)])
  {
    hide Refused, Validate, Repair, Write, Repaired, Torn, Rewritten, Written;
    var v := images[|images| - 1];
    TrailOfRepair(v);
    TrailOfWrite(v, config);
    TrailAppend(v, Repair(v), Write(v, config));
    ExecuteStaysOnTrail(images, Repair(v), fates);
    ExecuteStaysOnTrail(images, Repair(v) + Write(v, config), fates);
    WriteEndsInCommit(v, config);
  }

  lemma WriteEndsInCommit(v: Image, config: Config)
    ensures var ops := Repair(v) + Write(v, config); ops != [] && ops[|ops| - 1] == Commit
  {
  }

  /** The configuration as it is stored. */
  function Stored(config: Config): Config {
    config.(schema := SCHEMA)
  }

  /** From a settled image nothing but the old and the new configuration can be loaded. */
  lemma OutcomesLoadOldOrNew(v: Image, config: Config, w: Image)
    requires Outcome(v, config, w)
    ensures Load(w) == Load(Repaired(v)) || Load(w) == Some(Stored(config))
    ensures w == Written(v, config) ==> Load(w) == Some(Stored(config))
    ensures Best(v).Some? ==> Best(w).Some?
  {
    hide NextGeneration;
  }

  /**
   * Crash atomicity: stopping a save at any operation, or failing any of them,
   * leaves a settled store with exactly its old or the new configuration, and
   * a save that reports success has settled the new one.
   */
  lemma SaveIsCrashAtomic(v: Image, config: Config, fates: seq<Fate>)
    requires Shaped(config) && Settled(v) && Newest(v) <= MAX_GENERATION
    ensures var r := Save([v], config, fates);
            && (forall w <- r.0 :: Load(w) == Load(v) || Load(w) == Some(Stored(config)))
            && (r.1 == Success ==> |r.0| == 1 && Load(r.0[0]) == Some(Stored(config)) && Settled(r.0[0]))
  {
    hide Save, Load, Outcome, Written, Stored;
    SaveOutcomes([v], config, fates);
    var r := Save([v], config, fates);
    forall w | w in r.0
      ensures Load(w) == Load(v) || Load(w) == Some(Stored(config))
    {
      if w != v {
        OutcomesLoadOldOrNew(v, config, w);
      }
    }
    if r.1 == Success {
      assert Outcome(v, config, Written(v, config)) by { WrittenIsOutcome(v, config); }
      OutcomesLoadOldOrNew(v, config, Written(v, config));
      WrittenSettlesIffBelowMaximum(v, config);
      SelectedSlotsDecode(v);
    }
  }

  lemma WrittenIsOutcome(v: Image, config: Config)
    ensures Outcome(v, config, Written(v, config)) && Outcome(v, config, Repaired(v))
  {
  }

  /** A completed save settles the store exactly when the newest generation was below the maximum. */
  lemma WrittenSettlesIffBelowMaximum(v: Image, config: Config)
    requires Newest(v) <= MAX_GENERATION
    ensures Settled(Written(v, config)) <==> Newest(v) < MAX_GENERATION
    ensures Live(Written(v, config)) == Some(SlotToWrite(v))
  {
  }

  /**
   * From any image, settled or not: a save that is not refused is atomic for
   * every way of failing exactly when repairing the marker loads nothing new.
   */
  lemma AtomicIffRepairIsHarmless(v: Image, config: Config)
    requires Shaped(config) && Validate(config) == Accepted && !Refused(v)
    ensures (forall fates: seq<Fate> :: Harmless(v, config, Save([v], config, fates).0))
            <==> Load(Repaired(v)) == Load(v) || Load(Repaired(v)) == Some(Stored(config))
  {
    hide Load, Outcome, Repaired, Stored;
    if Load(Repaired(v)) == Load(v) || Load(Repaired(v)) == Some(Stored(config)) {
      forall fates: seq<Fate>
        ensures Harmless(v, config, Save([v], config, fates).0)
      {
        SaveOutcomes([v], config, fates);
        forall w | w in Save([v], config, fates).0
          ensures Load(w) == Load(v) || Load(w) == Some(Stored(config))
        {
          if w != v {
            OutcomesLoadOldOrNew(v, config, w);
          }
        }
      }
    } else {
      RepairCanStand(v, config);
      assert !Harmless(v, config, Save([v], config, [PowerLost]).0);
    }
  }

  ghost predicate Harmless(v: Image, config: Config, images: seq<Image>) {
    forall w <- images :: Load(w) == Load(v) || Load(w) == Some(Stored(config))
  }

  /** A save of an unsettled store can stop right after its repair. */
  lemma RepairCanStand(v: Image, config: Config)
    requires Shaped(config) && Validate(config) == Accepted && !Refused(v) && Load(Repaired(v)) != Load(v)
    ensures Repaired(v) in Save([v], config, [PowerLost]).0
  {
    hide Validate, Refused;
    var ops := Repair(v) + Write(v, config);
    assert ops[0] == SetActive(Best(v).value);
    assert Attempts(v, ops[0]) == [Repaired(v)];
    assert Execute([v], ops, [PowerLost]).0 == [v] + [Repaired(v)];
  }

  /**
   * At the maximum the order of generations breaks: a save that reported
   * success is undone by the repair of the next save, even one that is rejected.
   */
  lemma MaximumForgetsSave(v: Image, config: Config, fates: seq<Fate>, rejected: Config)
    requires Shaped(config) && Shaped(rejected) && Validate(rejected) != Accepted
    requires Newest(v) == MAX_GENERATION && Save([v], config, fates).1 == Success
    ensures var w := Save([v], config, fates).0[0];
            && Load(w) == Some(Stored(config))
            && Save([w], rejected, [Done, Done]) == ([w.(active := Best(v))], InvalidConfig)
            && Load(w.(active := Best(v))) == Load(Repaired(v))
  {
    SaveOutcomes([v], config, fates);
    var w := Written(v, config);
    hide Save;
    WrittenIsOutcome(v, config);
    OutcomesLoadOldOrNew(v, config, w);
    WrittenSettlesIffBelowMaximum(v, config);
    assert Best(w) == Best(v);
    RejectedSaveRepairs(w, rejected);
  }

  lemma RejectedSaveRepairs(w: Image, rejected: Config)
    requires Shaped(rejected) && Validate(rejected) != Accepted && !Settled(w) && !Refused(w)
    ensures Save([w], rejected, [Done, Done]) == ([w.(active := Best(w))], InvalidConfig)
  {
    hide Validate, Refused;
    var ops := Repair(w);
    assert ops[1..] == [Commit] && ops[1..][1..] == [];
    var fates := [Done, Done];
    assert fates[1..] == [Done] && fates[1..][1..] == [];
    var repaired := w.(active := Best(w));
    assert Execute([w], ops, fates) == Execute([w, repaired], [Commit], [Done]);
    assert Execute([w, repaired], [Commit], [Done]) == Execute([repaired], [], []);
  }

  lemma {:induction false} AllDoneSucceeds(images: seq<Image>, ops: seq<Operation>, fates: seq<Fate>)
    requires images != [] && |ops| <= |fates| && forall fate <- fates :: fate == Done
    ensures Execute(images, ops, fates).1 == Success
    decreases |ops|
  {
    if ops != [] {
      assert fates[0] in fates && forall fate <- fates[1..] :: fate in fates;
      var v := images[|images| - 1];
      AllDoneSucceeds(if ops[0] == Commit then [v] else images + Attempts(v, ops[0]), ops[1..], fates[1..]);
    }
  }

  /**
   * While nothing fails, a save reports success if and only if the configuration
   * is acceptable and the slot in use is not of the last generation.
   */
  lemma SaveSucceedsIff(images: seq<Image>, config: Config, fates: seq<Fate>)
    requires images != [] && Shaped(config) && |fates| >= 7 && forall fate <- fates :: fate == Done
    ensures Save(images, config, fates).1 == Success
        <==> Validate(config) == Accepted && !Refused(images[|images| - 1])
  {
    hide Validate, Refused, Execute;
    var v := images[|images| - 1];
    AllDoneSucceeds(images, Repair(v), fates);
    AllDoneSucceeds(images, Repair(v) + Write(v, config), fates);
  }

  // ---------- Whole runs ----------

  /** A save, or a power loss after which the memory holds one of the candidates. */
  datatype Event = SaveCalled(config: Config, fates: seq<Fate>) | Restarted(candidate: nat)

  function Happened(images: seq<Image>, event: Event): (r: seq<Image>)
    requires images != []
    ensures r != []
  {
    match event
    case SaveCalled(config, fates) => if Shaped(config) then Save(images, config, fates).0 else images
    case Restarted(candidate) => if candidate < |images| then [images[candidate]] else images
  }

  ghost function Run(events: seq<Event>): (r: seq<Image>)
    ensures r != []
  {
    if events == [] then [BLANK] else Happened(Run(events[..|events| - 1]), events[|events| - 1])
  }

  ghost predicate SlotSound(slot: Option<Saved>, saves: nat, events: seq<Event>) {
    slot.Some? ==> 1 <= slot.value.generation <= saves && Submitted(slot.value.config, events)
  }

  /** Two slots are one generation apart, generations count saves, and only submitted configurations are kept. */
  ghost predicate Sound(v: Image, saves: nat, events: seq<Event>) {
    && SlotSound(v.a, saves, events) && SlotSound(v.b, saves, events)
    && (v.a.Some? && v.b.Some? ==>
          v.a.value.generation == v.b.value.generation + 1 || v.b.value.generation == v.a.value.generation + 1)
  }

  ghost predicate Submitted(config: Config, events: seq<Event>) {
    exists e <- events :: e.SaveCalled? && Stored(e.config) == config
  }

  lemma OutcomeIsSound(v: Image, saves: nat, events: seq<Event>, config: Config, w: Image)
    requires Sound(v, saves, events) && saves < MAX_GENERATION
    requires Submitted(Stored(config), events) && Outcome(v, config, w)
    ensures Sound(w, saves + 1, events)
  {
    hide Submitted;
    SelectedSlotsDecode(v);
  }

  lemma SubmittedGrows(config: Config, events: seq<Event>, event: Event)
    requires Submitted(config, events)
    ensures Submitted(config, events + [event])
  {
    var e :| e in events && e.SaveCalled? && Stored(e.config) == config;
    assert e in events + [event];
  }

  lemma SoundGrows(v: Image, saves: nat, events: seq<Event>, event: Event)
    requires Sound(v, saves, events)
    ensures Sound(v, saves, events + [event]) && Sound(v, saves + 1, events + [event])
  {
    hide Submitted;
    if v.a.Some? {
      SubmittedGrows(v.a.value.config, events, event);
    }
    if v.b.Some? {
      SubmittedGrows(v.b.value.config, events, event);
    }
  }

  /**
   * Over every run of fewer than 2^32 events from an empty memory, with any
   * failures and power losses, two decodable slots are exactly one generation
   * apart and only submitted configurations are ever stored.
   */
  lemma {:induction false} RunsAreSound(events: seq<Event>)
    requires |events| <= MAX_GENERATION
    ensures forall v <- Run(events) :: Sound(v, |events|, events)
    decreases |events|
  {
    if events != [] {
      hide Sound, Outcome, Save;
      var before, event := events[..|events| - 1], events[|events| - 1];
      RunsAreSound(before);
      assert before + [event] == events;
      var images := Run(before);
      var v := images[|images| - 1];
      forall w | w in Run(events)
        ensures Sound(w, |events|, events)
      {
        if w in images {
          SoundGrows(w, |before|, before, event);
        } else {
          SaveOutcomes(images, event.config, event.fates);
          SoundGrows(v, |before|, before, event);
          assert Submitted(Stored(event.config), events) by { assert event in events; }
          OutcomeIsSound(v, |before|, events, event.config, w);
        }
      }
    }
  }

  // ---------- What was saved stays ----------

  /**
   * What is live is at least of generation g, and whatever is was first or
   * submitted in the events after it.
   */
  ghost predicate Keeps(w: Image, g: nat, first: Config, after: seq<Event>) {
    && Live(w).Some? && Slot(w, Live(w).value).value.generation >= g
    && forall key :: Slot(w, key).Some? && Slot(w, key).value.generation >= g ==> Allowed(Slot(w, key).value.config, first, after)
  }

  ghost predicate Allowed(config: Config, first: Config, after: seq<Event>) {
    config == first || Submitted(config, after)
  }

  lemma WrittenKeeps(v: Image, config: Config)
    requires Newest(v) < MAX_GENERATION
    ensures Keeps(Written(v, config), Newest(v) + 1, Stored(config), [])
  {
    hide Submitted;
    SelectedSlotsDecode(v);
  }

  lemma OutcomeKeeps(v: Image, g: nat, first: Config, after: seq<Event>, config: Config, w: Image)
    requires Keeps(v, g, first, after) && Newest(v) < MAX_GENERATION
    requires Outcome(v, config, w) && Submitted(Stored(config), after)
    ensures Keeps(w, g, first, after)
  {
    hide Submitted;
    SelectedSlotsDecode(v);
    forall key | Slot(w, key).Some? && Slot(w, key).value.generation >= g
      ensures Allowed(Slot(w, key).value.config, first, after)
    {
      assert Slot(w, key) == Slot(v, key) || Slot(w, key).value == Saved(Stored(config), Newest(v) + 1);
    }
    assert Slot(v, Live(v).value).value.generation <= Newest(v);
  }

  lemma KeepsGrows(w: Image, g: nat, first: Config, after: seq<Event>, event: Event)
    requires Keeps(w, g, first, after)
    ensures Keeps(w, g, first, after + [event])
  {
    hide Submitted, Live;
    forall key | Slot(w, key).Some? && Slot(w, key).value.generation >= g
      ensures Allowed(Slot(w, key).value.config, first, after + [event])
    {
      if Slot(w, key).value.config != first {
        SubmittedGrows(Slot(w, key).value.config, after, event);
      }
    }
  }

  lemma NewestIsBounded(v: Image, saves: nat, events: seq<Event>)
    requires Sound(v, saves, events)
    ensures Newest(v) <= saves
  {
    hide Submitted;
  }

  /** The image a save that reports success leaves. */
  lemma SuccessWrites(before: seq<Event>, config: Config, fates: seq<Fate>)
    requires Shaped(config) && Save(Run(before), config, fates).1 == Success
    ensures var v := Run(before)[|Run(before)| - 1];
            Run(before + [SaveCalled(config, fates)]) == [Written(v, config)]
  {
    hide Save;
    var events := before + [SaveCalled(config, fates)];
    assert events[..|events| - 1] == before;
    SaveOutcomes(Run(before), config, fates);
  }

  lemma {:induction false} KeepsOn(before: seq<Event>, g: nat, first: Config, after: seq<Event>)
    requires |before| + |after| <= MAX_GENERATION
    requires forall w <- Run(before) :: Keeps(w, g, first, [])
    ensures forall w <- Run(before + after) :: Keeps(w, g, first, after)
    decreases |after|
  {
    hide Keeps, Outcome, Save;
    if after == [] {
      assert before + after == before;
    } else {
      var earlier, event := after[..|after| - 1], after[|after| - 1];
      var all := before + earlier;
      assert (before + after)[..|before + after| - 1] == all && earlier + [event] == after;
      KeepsOn(before, g, first, earlier);
      RunsAreSound(all);
      var images := Run(all);
      var v := images[|images| - 1];
      forall w | w in Run(before + after)
        ensures Keeps(w, g, first, after)
      {
        KeepsGrows(v, g, first, earlier, event);
        if w in images {
          KeepsGrows(w, g, first, earlier, event);
        } else {
          SaveOutcomes(images, event.config, event.fates);
          NewestIsBounded(v, |all|, all);
          assert event in after;
          OutcomeKeeps(v, g, first, after, event.config, w);
        }
      }
    }
  }

  /**
   * A saved configuration is never lost: in every run of fewer than 2^32
   * events with any failures and power losses, once a save has reported
   * success every candidate loads its configuration or one submitted later.
   */
  lemma NeverLost(before: seq<Event>, config: Config, fates: seq<Fate>, after: seq<Event>)
    requires |before| + 1 + |after| <= MAX_GENERATION
    requires Shaped(config) && Save(Run(before), config, fates).1 == Success
    ensures forall w <- Run(before + [SaveCalled(config, fates)] + after) ::
              Load(w).Some? && (Load(w).value == Stored(config) || Submitted(Load(w).value, after))
  {
    hide Run, Save, Written, Keeps, Load;
    var saved := before + [SaveCalled(config, fates)];
    SuccessWrites(before, config, fates);
    RunsAreSound(before);
    var v := Run(before)[|Run(before)| - 1];
    NewestIsBounded(v, |before|, before);
    WrittenKeeps(v, config);
    KeepsOn(saved, Newest(v) + 1, Stored(config), after);
    forall w | w in Run(saved + after)
      ensures Load(w).Some? && (Load(w).value == Stored(config) || Submitted(Load(w).value, after))
    {
      KeptLoads(w, Newest(v) + 1, Stored(config), after);
    }
  }

  lemma KeptLoads(w: Image, g: nat, first: Config, after: seq<Event>)
    requires Keeps(w, g, first, after)
    ensures Load(w).Some? && Allowed(Load(w).value, first, after)
  {
    hide Submitted;
    SelectedSlotsDecode(w);
  }

  // ---------- Runs that leave the store unsettled ----------

  const COMPLETE: seq<Fate> := [Done, Done, Done, Done, Done]

  /** The slot is written and read back, but the marker is not moved. */
  const INTERRUPTED: seq<Fate> := [Done, Done, Done, PowerLost]

  lemma CompleteSave(v: Image, config: Config)
    requires Shaped(config) && Validate(config) == Accepted && Settled(v) && Newest(v) < MAX_GENERATION
    ensures Save([v], config, COMPLETE).0 == [Written(v, config)]
  {
    SelectedSlotsDecode(v);
    hide Validate;
    assert !Refused(v);
    assert Repair(v) + Write(v, config) == Write(v, config);
    hide Save, Execute, Refused;
    AllDoneSucceeds([v], Write(v, config), COMPLETE);
    SaveSettled(v, config, COMPLETE);
    SaveOutcomes([v], config, COMPLETE);
  }

  lemma SaveSettled(v: Image, config: Config, fates: seq<Fate>)
    requires Shaped(config) && Validate(config) == Accepted && Settled(v) && !Refused(v)
    ensures Save([v], config, fates) == Execute([v], Write(v, config), fates)
  {
    hide Validate, Refused, Execute, Write;
    assert Repair(v) + Write(v, config) == Write(v, config);
  }

  lemma InterruptedSave(v: Image, config: Config)
    requires Shaped(config) && Validate(config) == Accepted && Settled(v) && Newest(v) < MAX_GENERATION
    ensures Save([v], config, INTERRUPTED).0 == [Rewritten(v, config), Written(v, config)]
  {
    SelectedSlotsDecode(v);
    assert !Refused(v);
    SaveSettled(v, config, INTERRUPTED);
    hide Validate, Refused, Save, Best, Settled, NextGeneration;
    var ops := Write(v, config);
    assert ops == [ops[0], Commit, ReadBack, ops[3], Commit] && ops[0].SetSlot? && ops[3].SetActive?;
    var w := Rewritten(v, config);
    assert After(v, ops[0]) == w by { SettledIsRepaired(v); }
    assert After(w, ops[3]) == Written(v, config);
    var f1, f2, f3 := [Done, Done, PowerLost], [Done, PowerLost], [PowerLost];
    assert INTERRUPTED[1..] == f1 && f1[1..] == f2 && f2[1..] == f3;
    var o1, o2, o3 := [Commit, ReadBack, ops[3], Commit], [ReadBack, ops[3], Commit], [ops[3], Commit];
    assert ops[1..] == o1 && o1[1..] == o2 && o2[1..] == o3;
    var images := [v] + Attempts(v, ops[0]);
    assert images[|images| - 1] == w;
    assert Execute([v], ops, INTERRUPTED) == Execute(images, o1, f1) == Execute([w], o2, f2);
    assert [w] + [] == [w];
    assert Execute([w], o2, f2) == Execute([w], o3, f3);
    assert Attempts(w, ops[3]) == [Written(v, config)];
  }

  lemma SettledIsRepaired(v: Image)
    requires Settled(v)
    ensures Repaired(v) == v
  {
  }

  /**
   * A run after which the repair is not harmless: the second save loses power
   * before its marker, so the first configuration is loaded, and a third save
   * that loses power at once makes the second one live.
   */
  lemma RepairCanHarm(c1: Config, c2: Config, c3: Config)
    requires Shaped(c1) && Shaped(c2) && Shaped(c3)
    requires Validate(c1) == Accepted && Validate(c2) == Accepted && Validate(c3) == Accepted
    ensures var images := Run([SaveCalled(c1, COMPLETE), SaveCalled(c2, INTERRUPTED), Restarted(0)]);
            && |images| == 1 && Load(images[0]) == Some(Stored(c1))
            && exists w <- Save(images, c3, [PowerLost]).0 :: Load(w) == Some(Stored(c2))
  {
    var v1 := Written(BLANK, c1);
    CompleteSave(BLANK, c1);
    assert v1 == Image(Some(Saved(Stored(c1), 1)), None, Some(A));
    InterruptedSave(v1, c2);
    var v2 := Rewritten(v1, c2);
    assert v2 == Image(Some(Saved(Stored(c1), 1)), Some(Saved(Stored(c2), 2)), Some(A));
    var e := [SaveCalled(c1, COMPLETE), SaveCalled(c2, INTERRUPTED), Restarted(0)];
    hide Save, Validate;
    assert e[..2] == [e[0], e[1]] && e[..2][..1] == [e[0]] && e[..1] == [e[0]] && e[..1][..0] == [];
    assert Run([]) == [BLANK];
    assert Run([e[0]]) == [v1];
    assert Run(e[..2]) == [v2, Written(v1, c2)];
    assert Run(e) == [v2];
    RepairLoads(v2, c1, c2, c3);
  }

  lemma RepairLoads(v: Image, c1: Config, c2: Config, c3: Config)
    requires v == Image(Some(Saved(Stored(c1), 1)), Some(Saved(Stored(c2), 2)), Some(A))
    requires Shaped(c3) && Validate(c3) == Accepted
    ensures Load(v) == Some(Stored(c1))
    ensures exists w <- Save([v], c3, [PowerLost]).0 :: Load(w) == Some(Stored(c2))
  {
    hide Validate, Save;
    assert Load(Repaired(v)) == Some(Stored(c2));
    if Stored(c1) == Stored(c2) {
      assert v in Save([v], c3, [PowerLost]).0 by { SavedFromStays(v, c3); }
    } else {
      RepairCanStand(v, c3);
    }
  }

  lemma SavedFromStays(v: Image, config: Config)
    requires Shaped(config) && Validate(config) == Accepted
    ensures v in Save([v], config, [PowerLost]).0
  {
    hide Validate;
    if !Refused(v) {
      var ops := Repair(v) + Write(v, config);
      assert Execute([v], ops, [PowerLost]).0 == [v] + Attempts(v, ops[0]);
    }
  }

  // ---------- A run to the maximum ----------

  ghost function Saves(config: Config, n: nat): seq<Event> {
    if n == 0 then [] else Saves(config, n - 1) + [SaveCalled(config, COMPLETE)]
  }

  /** The image after n complete saves: they alternate between the slots, A first. */
  ghost function Alternated(config: Config, n: nat): Image {
    var newest := Some(Saved(Stored(config), n));
    var older := if n <= 1 then None else Some(Saved(Stored(config), n - 1));
    if n == 0 then BLANK
    else if n % 2 == 1 then Image(newest, older, Some(A))
    else Image(older, newest, Some(B))
  }

  lemma AlternatedIsSettled(config: Config, n: nat)
    ensures Settled(Alternated(config, n)) && Newest(Alternated(config, n)) == n
  {
  }

  lemma WritingAlternates(config: Config, n: nat)
    requires 0 < n <= MAX_GENERATION
    ensures Written(Alternated(config, n - 1), config) == Alternated(config, n)
  {
    AlternatedIsSettled(config, n - 1);
  }

  lemma {:induction false} SavesAlternate(config: Config, n: nat)
    requires Shaped(config) && Validate(config) == Accepted && n <= MAX_GENERATION
    ensures Run(Saves(config, n)) == [Alternated(config, n)] && |Saves(config, n)| == n
    decreases n
  {
    hide Validate, Save;
    if n > 0 {
      SavesAlternate(config, n - 1);
      var v := Alternated(config, n - 1);
      AlternatedIsSettled(config, n - 1);
      CompleteSave(v, config);
      WritingAlternates(config, n);
      hide Alternated, Written;
      var events := Saves(config, n);
      assert events[..|events| - 1] == Saves(config, n - 1);
    }
  }

  /** A run of one save less than the maximum, then one interrupted and a restart. */
  ghost function ToMaximum(config: Config, newest: Config): seq<Event> {
    Saves(config, MAX_GENERATION - 1) + [SaveCalled(newest, INTERRUPTED)] + [Restarted(0)]
  }

  /**
   * The maximum is reached by a run after which the check before the repair does
   * not see it: the slot at the maximum is not the live one.
   */
  lemma MaximumSlipsThrough(old0: Config, newest: Config, config: Config)
    requires Shaped(old0) && Shaped(newest) && Shaped(config)
    requires Validate(old0) == Accepted && Validate(newest) == Accepted && Validate(config) == Accepted
    ensures var images := Run(ToMaximum(old0, newest));
            && |images| == 1 && Newest(images[0]) == MAX_GENERATION && !Refused(images[0])
            && Save(images, config, [Done, Done, Done, Done, Done, Done, Done]).1 == Success
  {
    hide Validate, Save;
    SavesAlternate(old0, MAX_GENERATION - 1);
    var v := Alternated(old0, MAX_GENERATION - 1);
    InterruptedSave(v, newest);
    var w := Rewritten(v, newest);
    assert w == Image(Some(Saved(Stored(newest), MAX_GENERATION)), Some(Saved(Stored(old0), MAX_GENERATION - 1)), Some(B));
    RunToMaximum(old0, newest, v, w);
    SavesAtMaximum(w, config);
  }

  lemma RunToMaximum(old0: Config, newest: Config, v: Image, w: Image)
    requires Run(Saves(old0, MAX_GENERATION - 1)) == [v] && Shaped(newest)
    requires Save([v], newest, INTERRUPTED).0 == [w, Written(v, newest)]
    ensures Run(ToMaximum(old0, newest)) == [w]
  {
    hide Save, Saves;
    var saves := Saves(old0, MAX_GENERATION - 1);
    var cut := saves + [SaveCalled(newest, INTERRUPTED)];
    assert cut[..|cut| - 1] == saves;
    assert Run(cut) == [w, Written(v, newest)];
    var all := cut + [Restarted(0)];
    assert all[..|all| - 1] == cut;
  }

  lemma SavesAtMaximum(w: Image, config: Config)
    requires Shaped(config) && Validate(config) == Accepted && !Settled(w) && !Refused(w)
    ensures Save([w], config, [Done, Done, Done, Done, Done, Done, Done]).1 == Success
  {
    hide Validate, Refused;
    AllDoneSucceeds([w], Repair(w) + Write(w, config), [Done, Done, Done, Done, Done, Done, Done]);
  }

  // ---------- The source's control flow ----------

  /** The memory behind the store: the candidates for what is durable, the last being what reads see. */
  class Memory {
    var images: seq<Image>

    constructor ()
      ensures images == [BLANK]
    {
      images := [BLANK];
    }

    /** Performs operation k of ops, whose outcome from here on is total. */
    method Perform(op: Operation, fates: seq<Fate>, k: nat, ghost ops: seq<Operation>, ghost total: (seq<Image>, Status))
      returns (status: Status)
      requires images != [] && k < |ops| && ops[k] == op
      requires Execute(images, ops[k..], From(fates, k)) == total
      modifies this
      ensures images != []
      ensures status == Success ==> Execute(images, ops[k + 1..], From(fates, k + 1)) == total
      ensures status != Success ==> (images, status) == total
    {
      assert ops[k..][1..] == ops[k + 1..];
      assert k < |fates| ==> From(fates, k)[0] == fates[k] && From(fates, k)[1..] == From(fates, k + 1);
      var v := images[|images| - 1];
      var fate := if k < |fates| then fates[k] else PowerLost;
      match fate
      case Done =>
        images := if op == Commit then [v] else images + Attempts(v, op);
        return Success;
      case Failed(effects) =>
        images := images + Partly(Attempts(v, op), effects);
        return StorageError;
      case PowerLost =>
        images := images + Attempts(v, op);
        return Lost;
    }

    /** Slot A is considered first; a later slot replaces it if its generation is at least as high. */
    method ReadBest() returns (best: Option<Key>)
      requires images != []
      ensures best == Best(images[|images| - 1])
    {
      var v := images[|images| - 1];
      best := None;
      if v.a.Some? {
        best := Some(A);
      }
      if v.b.Some? && (best == None || v.b.value.generation >= v.a.value.generation) {
        best := Some(B);
      }
    }

    method SaveAtomic(config: Config, fates: seq<Fate>) returns (status: Status)
      requires images != [] && Shaped(config)
      modifies this
      ensures (images, status) == Save(old(images), config, fates)
    {
      hide Validate, Refused, Best, NextGeneration;
      SelectedSlotsDecode(images[|images| - 1]);
      var best := ReadBest();
      var v := images[|images| - 1];
      if Refused(v) {
        return InvalidState;
      }
      var valid := Validate(config) == Accepted;
      ghost var ops := Repair(v) + (if valid then Write(v, config) else []);
      assert Repair(v) + [] == Repair(v);
      ghost var total := Execute(images, ops, fates);
      assert ops[0..] == ops && From(fates, 0) == fates;
      var k := 0;
      if best.Some? && best != v.active {
        status := Perform(SetActive(best.value), fates, 0, ops, total);
        if status != Success {
          return;
        }
        status := Perform(Commit, fates, 1, ops, total);
        if status != Success {
          return;
        }
        k := 2;
      }
      if !valid {
        assert ops[k..] == [];
        return InvalidConfig;
      }
      assert ops[k..] == Write(v, config);
      var key := if best.None? then A else Other(best.value);
      var generation := if best.None? then 1 else NextGeneration(Slot(v, best.value).value.generation);
      status := WriteSlot(key, Saved(config.(schema := SCHEMA), generation), fates, k, ops, total);
    }

    /** Writes the slot, reads it back and makes it active. */
    method WriteSlot(key: Key, saved: Saved, fates: seq<Fate>, k: nat,
                     ghost ops: seq<Operation>, ghost total: (seq<Image>, Status))
      returns (status: Status)
      requires images != [] && k <= |ops|
      requires ops[k..] == [SetSlot(key, saved), Commit, ReadBack, SetActive(key), Commit]
      requires Execute(images, ops[k..], From(fates, k)) == total
      modifies this
      ensures (images, status) == total
    {
      var write := SetSlot(key, saved);
      assert forall i :: 0 <= i < 5 ==> ops[k + i] == ops[k..][i];
      hide Execute;
      status := Perform(write, fates, k, ops, total);
      if status != Success {
        return;
      }
      status := Perform(Commit, fates, k + 1, ops, total);
      if status != Success {
        return;
      }
      status := Perform(ReadBack, fates, k + 2, ops, total);
      if status != Success {
        return;
      }
      status := Perform(SetActive(key), fates, k + 3, ops, total);
      if status != Success {
        return;
      }
      status := Perform(Commit, fates, k + 4, ops, total);
      if status == Success {
        assert ops[k + 5..] == [];
        NothingLeft(images, From(fates, k + 5));
      }
    }
  }

  lemma NothingLeft(images: seq<Image>, fates: seq<Fate>)
    requires images != []
    ensures Execute(images, [], fates) == (images, Success)
  {
  }

  /** The fates from position k on. */
  function From(fates: seq<Fate>, k: nat): seq<Fate> {
    if k <= |fates| then fates[k..] else []
  }
}
