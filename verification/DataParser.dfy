/** The parser of "Get Notification Attributes" responses. */
module DataParser {

  // A byte-at-a-time state machine that is fed arbitrary fragments and fills
  // bounded text fields.

  import opened AncsProtocol
  import opened Bytes

  // ---------- The notification fields ----------

  const FIELDS: nat := 6

  const REQUIRED: set<nat> := {0, 1, 2, 3, 4, 5}

  /** Bytes of text the field of an attribute holds, without its terminator. */
  function Capacity(id: nat): nat {
    match id
    case 0 => 256 // app id
    case 1 => 512 // title
    case 2 => 512 // subtitle
    case 3 => 4096 // message
    case 4 => 23 // message size
    case _ => 32 // date
  }

  /** Attributes that may be cut; the others must fit. */
  predicate MayTruncate(id: nat) {
    id <= 3
  }

  datatype Phase = Command | Uid | AttributeId | AttributeLength | AttributeValue | Completed | Failed

  /** The notification record, as far as this parser writes it. */
  datatype Record = Record(fields: seq<seq<Byte>>, truncated: seq<bool>, complete: bool, errorCode: Code)

  ghost predicate ValidRecord(r: Record) {
    && |r.fields| == FIELDS && |r.truncated| == 4
    && (forall id :: 0 <= id < FIELDS ==> |r.fields[id]| == Capacity(id) + 1)
  }

  datatype State = State(
    record: Record,
    expectedUid: nat,
    expectedMask: set<nat>,
    receivedMask: set<nat>,
    responseUid: nat,
    attributeLength: nat,
    attributeRead: nat,
    phase: Phase,
    uidBytesRead: nat,
    attributeId: nat,
    lengthBytesRead: nat,
    errorCode: Code)

  ghost predicate ValidState(s: State) {
    && ValidRecord(s.record)
    && s.attributeLength < 0x1_0000
    && (s.phase == Uid ==> s.uidBytesRead < 4)
    && (s.phase == AttributeLength ==> s.attributeRead == 0 && s.lengthBytesRead < 2 && s.attributeLength < Weight(s.lengthBytesRead))
    && (s.phase == AttributeValue ==> s.attributeRead < s.attributeLength)
  }

  // ---------- One byte ----------

  function Fail(s: State, code: Code): State {
    s.(phase := Failed, errorCode := code, record := s.record.(complete := false, errorCode := code))
  }

  ghost predicate FailedWith(s: State, code: Code) {
    s.phase == Failed && s.errorCode == code && s.record.errorCode == code && !s.record.complete
  }

  function Put(r: Record, id: nat, at: nat, byte: Byte): (r': Record)
    requires |r.fields| == FIELDS && id < FIELDS && at < |r.fields[id]|
  {
    var field: seq<Byte> := r.fields[id][at := byte];
    r.(fields := r.fields[id := field])
  }

  /** The record once the value just read is terminated and, if it was cut, flagged. */
  function Terminated(s: State): (r: Record)
    requires ValidRecord(s.record) && s.attributeId <= 5
    ensures ValidRecord(r)
  {
    var id := s.attributeId;
    var capacity := Capacity(id);
    var end := if s.attributeLength < capacity then s.attributeLength else capacity;
    var r := Put(s.record, id, end, 0);
    if s.attributeLength > capacity && MayTruncate(id) then r.(truncated := r.truncated[id := true]) else r
  }

  /** The attribute is marked received, and the response complete if it was the last one. */
  function Accounted(s: State): (s': State)
    requires ValidRecord(s.record) && s.attributeLength < 0x1_0000
    ensures ValidState(s')
  {
    var received := s.receivedMask + {s.attributeId};
    if s.expectedMask <= received then
      s.(record := s.record.(complete := true, errorCode := Ok), receivedMask := received, phase := Completed)
    else
      s.(receivedMask := received, phase := AttributeId, attributeLength := 0, attributeRead := 0, lengthBytesRead := 0)
  }

  /** The attribute whose last byte was just read is terminated and accounted for. */
  function FinishAttribute(s: State): (s': State)
    requires ValidRecord(s.record) && s.attributeLength < 0x1_0000
    ensures ValidState(s')
  {
    if s.attributeId > 5 then Fail(s, ErrAttribute)
    else
      var s1 := s.(record := Terminated(s));
      if s.attributeLength > Capacity(s.attributeId) && !MayTruncate(s.attributeId) then Fail(s1, ErrOverflow)
      else Accounted(s1)
  }

  function StepUid(s: State, byte: Byte): (s': State)
    requires ValidState(s) && s.phase == Uid
    ensures ValidState(s')
  {
    var s1 := s.(responseUid := s.responseUid + Weight(s.uidBytesRead) * byte, uidBytesRead := s.uidBytesRead + 1);
    if s1.uidBytesRead < 4 then s1
    else if s1.responseUid != s1.expectedUid then Fail(s1, ErrUidMismatch)
    else s1.(phase := AttributeId)
  }

  function StepAttributeId(s: State, byte: Byte): (s': State)
    requires ValidState(s) && s.phase == AttributeId
    ensures ValidState(s')
  {
    if byte > 5 then Fail(s, ErrAttribute)
    else if byte !in s.expectedMask || byte in s.receivedMask then Fail(s, ErrSequence)
    else s.(attributeId := byte, attributeLength := 0, attributeRead := 0, lengthBytesRead := 0, phase := AttributeLength)
  }

  function StepLength(s: State, byte: Byte): (s': State)
    requires ValidState(s) && s.phase == AttributeLength
    ensures ValidState(s')
  {
    LengthFits(s.attributeLength, s.lengthBytesRead, byte);
    var s1 := s.(attributeLength := s.attributeLength + Weight(s.lengthBytesRead) * byte,
                 lengthBytesRead := s.lengthBytesRead + 1);
    if s1.lengthBytesRead < 2 then s1
    else if s1.attributeLength == 0 then FinishAttribute(s1)
    else s1.(phase := AttributeValue)
  }

  function StepValue(s: State, byte: Byte): (s': State)
    requires ValidState(s) && s.phase == AttributeValue
    ensures ValidState(s')
  {
    if s.attributeId > 5 then Fail(s, ErrAttribute)
    else
      var record := if s.attributeRead < Capacity(s.attributeId)
                    then Put(s.record, s.attributeId, s.attributeRead, byte) else s.record;
      var s1 := s.(record := record, attributeRead := s.attributeRead + 1);
      if s1.attributeRead == s1.attributeLength then FinishAttribute(s1) else s1
  }

  function Step(s: State, byte: Byte): (s': State)
    requires ValidState(s)
    ensures ValidState(s')
  {
    match s.phase
    case Command =>
      if byte != 0 then Fail(s, ErrCommand) else s.(responseUid := 0, uidBytesRead := 0, phase := Uid)
    case Uid => StepUid(s, byte)
    case AttributeId => StepAttributeId(s, byte)
    case AttributeLength => StepLength(s, byte)
    case AttributeValue => StepValue(s, byte)
    case Completed => Fail(s, ErrSequence)
    case Failed => s
  }

  lemma LengthFits(v: nat, n: nat, byte: Byte)
    requires n < 2 && v < Weight(n)
    ensures v + Weight(n) * byte < Weight(n + 1) <= 0x1_0000
  {
    assert Weight(0) == 1 && Weight(1) == 256 * Weight(0) && Weight(2) == 256 * Weight(1);
  }

  /** The state after a byte string. */
  function Run(s: State, bytes: seq<Byte>): (s': State)
    requires ValidState(s)
    ensures ValidState(s')
    decreases bytes
  {
    if bytes == [] then s else Run(Step(s, bytes[0]), bytes[1..])
  }

  function ResultOf(s: State): Result {
    match s.phase
    case Completed => Complete
    case Failed => Error
    case _ => More
  }

  function Started(record: Record, uid: nat, mask: set<nat>): (s: State)
  {
    var s := State(record, uid, mask * REQUIRED, {}, 0, 0, 0, Command, 0, 0, 0, Ok);
    if s.expectedMask == {} then Fail(s, ErrArgument) else s
  }

  // ---------- Feeding fragments ----------

  lemma {:induction false} RunAppend(s: State, a: seq<Byte>, b: seq<Byte>)
    requires ValidState(s)
    ensures Run(s, a + b) == Run(Run(s, a), b)
    decreases a
  {
    if a == [] {
      assert a + b == b;
    } else {
      assert (a + b)[1..] == a[1..] + b;
      RunAppend(Step(s, a[0]), a[1..], b);
    }
  }

  lemma {:induction false} FailedAbsorbs(s: State, bytes: seq<Byte>)
    requires ValidState(s) && s.phase == Failed
    ensures Run(s, bytes) == s
    decreases bytes
  {
    if bytes != [] {
      FailedAbsorbs(Step(s, bytes[0]), bytes[1..]);
    }
  }

  /** The outcome of feeding fragments one after the other. */
  function FedInTurn(s: State, fragments: seq<seq<Byte>>): (r: (State, Result))
    requires ValidState(s)
    ensures ValidState(r.0)
    decreases fragments
  {
    if fragments == [] then (s, ResultOf(s))
    else FedInTurn(Run(s, fragments[0]), fragments[1..])
  }

  /**
   * However a byte string is cut into fragments, the parser ends in the same
   * state with the same fields and last result as when it is fed whole.
   */
  lemma {:induction false} FragmentationIndependent(s: State, fragments: seq<seq<Byte>>)
    requires ValidState(s)
    ensures var whole := Run(s, Flatten(fragments));
            FedInTurn(s, fragments) == (whole, ResultOf(whole))
    decreases fragments
  {
    if fragments != [] {
      RunAppend(s, fragments[0], Flatten(fragments[1..]));
      FragmentationIndependent(Run(s, fragments[0]), fragments[1..]);
    }
  }

  // ---------- The response language ----------

  datatype Attribute = Attribute(id: nat, value: seq<Byte>)

  function Encoded(a: Attribute): seq<Byte>
    requires a.id < 256
  {
    [a.id] + ToLe(|a.value|, 2) + a.value
  }

  function EncodedAll(attributes: seq<Attribute>): seq<Byte>
    requires Known(attributes)
  {
    if attributes == [] then [] else Encoded(attributes[0]) + EncodedAll(attributes[1..])
  }

  function Header(uid: nat): seq<Byte> {
    [0] + ToLe(uid, 4)
  }

  /** Command, notification id, then each attribute as id, 16-bit length and value. */
  function Response(uid: nat, attributes: seq<Attribute>): seq<Byte>
    requires Known(attributes)
  {
    Header(uid) + EncodedAll(attributes)
  }

  ghost predicate Known(attributes: seq<Attribute>) {
    forall i :: 0 <= i < |attributes| ==> attributes[i].id < FIELDS
  }

  ghost function Ids(attributes: seq<Attribute>): (ids: set<nat>)
    ensures forall i :: 0 <= i < |attributes| ==> attributes[i].id in ids
  {
    if attributes == [] then {} else {attributes[0].id} + Ids(attributes[1..])
  }

  /** Attributes a phone may send for a mask: each requested one at most once; the message size and the date must fit. */
  ghost predicate Admissible(attributes: seq<Attribute>, mask: set<nat>) {
    && (forall i :: 0 <= i < |attributes| ==>
          && attributes[i].id in mask && attributes[i].id < FIELDS
          && |attributes[i].value| < 0x1_0000
          && (attributes[i].id == 4 ==> |attributes[i].value| <= 23)
          && (attributes[i].id == 5 ==> |attributes[i].value| <= 32))
    && (forall i, j :: 0 <= i < j < |attributes| ==> attributes[i].id != attributes[j].id)
  }

  /** A full answer: every requested attribute, once, in any order. */
  ghost predicate Answers(attributes: seq<Attribute>, mask: set<nat>) {
    Admissible(attributes, mask) && mask <= Ids(attributes)
  }

  /** A field after a value was stored: its first capacity bytes, a terminator, then old bytes. */
  function FieldAfter(field: seq<Byte>, value: seq<Byte>, capacity: nat): (f: seq<Byte>)
    requires |field| == capacity + 1
    ensures |f| == |field|
  {
    var kept := if |value| < capacity then |value| else capacity;
    value[..kept] + [0] + field[kept + 1..]
  }

  // ---------- Every answer is accepted and stored ----------

  /** The state in which a fully read attribute is finished. */
  ghost function Filled(s: State, a: Attribute): (s': State)
    requires ValidState(s) && a.id < FIELDS && |a.value| < 0x1_0000
    ensures ValidRecord(s'.record)
  {
    var capacity := Capacity(a.id);
    var kept := if |a.value| < capacity then |a.value| else capacity;
    var field := a.value[..kept] + s.record.fields[a.id][kept..];
    s.(record := s.record.(fields := s.record.fields[a.id := field]), attributeId := a.id,
    attributeLength := |a.value|, attributeRead := |a.value|, lengthBytesRead := 2, phase := AttributeValue)
  }

  /** The value bytes of an attribute are copied while they fit and then only counted. */
  lemma {:induction false} FeedValue(s: State, a: Attribute, k: nat)
    requires ValidState(s) && s.phase == AttributeValue && a.id < FIELDS && s.attributeId == a.id
    requires |a.value| == s.attributeLength && s.attributeRead == k < |a.value| && s.lengthBytesRead == 2
    requires forall i :: 0 <= i < k && i < Capacity(a.id) ==> s.record.fields[a.id][i] == a.value[i]
    ensures Run(s, a.value[k..]) == FinishAttribute(Filled(s, a))
    decreases |a.value| - k
  {
    hide FinishAttribute;
    var byte := a.value[k];
    var rest := a.value[k..][1..];
    assert rest == a.value[k + 1..];
    var s1 := Step(s, byte);
    if k + 1 == |a.value| {
      var record := if k < Capacity(a.id) then Put(s.record, a.id, k, byte) else s.record;
      assert s.(record := record, attributeRead := k + 1) == Filled(s, a) by { FilledFields(s, a, record); }
      assert rest == [];
    } else {
      FeedValue(s1, a, k + 1);
      FilledAgain(s, s1, a, k);
    }
  }

  lemma FilledFields(s: State, a: Attribute, record: Record)
    requires ValidState(s) && a.id < FIELDS && 0 < |a.value| < 0x1_0000
    requires var k := |a.value| - 1;
             && record == (if k < Capacity(a.id) then Put(s.record, a.id, k, a.value[k]) else s.record)
             && forall i :: 0 <= i < k && i < Capacity(a.id) ==> s.record.fields[a.id][i] == a.value[i]
    ensures record == Filled(s, a).record
  {
    assert record.fields[a.id] == Filled(s, a).record.fields[a.id];
    assert record.fields == Filled(s, a).record.fields;
  }

  lemma FilledAgain(s: State, s1: State, a: Attribute, k: nat)
    requires ValidState(s) && s.phase == AttributeValue && a.id < FIELDS && s.attributeId == a.id
    requires |a.value| == s.attributeLength && s.attributeRead == k < |a.value| - 1 && s.lengthBytesRead == 2
    requires s1 == Step(s, a.value[k])
    ensures Filled(s1, a) == Filled(s, a)
  {
    assert Filled(s1, a).record.fields[a.id] == Filled(s, a).record.fields[a.id];
    assert Filled(s1, a).record.fields == Filled(s, a).record.fields;
  }

  /** The state once the id and the length of an attribute are read. */
  ghost function Announced(s: State, a: Attribute): State
    requires a.id < FIELDS
  {
    s.(attributeId := a.id, attributeLength := |a.value|, attributeRead := 0, lengthBytesRead := 2, phase := AttributeValue)
  }

  lemma LengthIsRead(s: State, a: Attribute)
    requires ValidState(s) && s.phase == AttributeId && a.id < FIELDS && |a.value| < 0x1_0000
    requires a.id in s.expectedMask && a.id !in s.receivedMask
    ensures var length := ToLe(|a.value|, 2);
            Step(Step(Step(s, a.id), length[0]), length[1])
            == if a.value == [] then FinishAttribute(Filled(s, a)) else Announced(s, a)
  {
    var length := ToLe(|a.value|, 2);
    assert Weight(0) == 1 && Weight(1) == 256 && Weight(2) == 0x1_0000;
    assert FromLe(length) == |a.value|;
    assert FromLe(length) == (length[0] as int) + 256 * (length[1] as int) by {
      assert length[1..] == [length[1]] && length[1..][1..] == [];
    }
    if a.value == [] {
      var f := Filled(s, a);
      assert f.record.fields[a.id] == s.record.fields[a.id];
      assert f.record.fields == s.record.fields;
    }
  }

  lemma {:induction false} FeedAttribute(s: State, a: Attribute)
    requires ValidState(s) && s.phase == AttributeId && a.id < FIELDS && |a.value| < 0x1_0000
    requires a.id in s.expectedMask && a.id !in s.receivedMask
    ensures Run(s, Encoded(a)) == FinishAttribute(Filled(s, a))
  {
    hide FinishAttribute, Step;
    var length := ToLe(|a.value|, 2);
    var start := [a.id, length[0], length[1]];
    assert Encoded(a) == start + a.value;
    RunAppend(s, start, a.value);
    RunThree(s, a.id, length[0], length[1]);
    LengthIsRead(s, a);
    if a.value != [] {
      var s3 := Announced(s, a);
      FeedValue(s3, a, 0);
      assert a.value[0..] == a.value;
      assert Filled(s3, a) == Filled(s, a);
    }
  }

  lemma RunThree(s: State, a: Byte, b: Byte, c: Byte)
    requires ValidState(s)
    ensures Run(s, [a, b, c]) == Step(Step(Step(s, a), b), c)
  {
    assert [a, b, c][1..] == [b, c] && [b, c][1..] == [c] && [c][1..] == [];
    assert Run(Step(Step(s, a), b), [c]) == Run(Step(Step(Step(s, a), b), c), []);
  }

  /** What a finished attribute leaves in the record and the masks. */
  lemma FinishStores(s: State, a: Attribute)
    requires ValidState(s) && s.phase == AttributeId && a.id < FIELDS && |a.value| < 0x1_0000
    requires MayTruncate(a.id) || |a.value| <= Capacity(a.id)
    ensures var s' := FinishAttribute(Filled(s, a));
            var capacity := Capacity(a.id);
            && s'.expectedMask == s.expectedMask && s'.expectedUid == s.expectedUid
            && s'.receivedMask == s.receivedMask + {a.id}
            && s'.phase == (if s.expectedMask <= s'.receivedMask then Completed else AttributeId)
            && s'.record.fields == s.record.fields[a.id := FieldAfter(s.record.fields[a.id], a.value, capacity)]
            && s'.record.truncated == (if |a.value| > capacity then s.record.truncated[a.id := true] else s.record.truncated)
            && (s'.phase == Completed ==> s'.record.complete && s'.record.errorCode == Ok)
            && s'.errorCode == s.errorCode
  {
    var s' := FinishAttribute(Filled(s, a));
    assert s'.record.fields[a.id] == FieldAfter(s.record.fields[a.id], a.value, Capacity(a.id));
    assert s'.record.fields == s.record.fields[a.id := FieldAfter(s.record.fields[a.id], a.value, Capacity(a.id))];
  }

  /** The value of each attribute is in its field, cut at the capacity, and flagged iff it was cut. */
  ghost predicate Holds(before: Record, after: Record, attributes: seq<Attribute>)
    requires ValidRecord(before) && ValidRecord(after) && Known(attributes)
  {
    && (forall i :: 0 <= i < |attributes| ==>
          var a := attributes[i];
          && after.fields[a.id] == FieldAfter(before.fields[a.id], a.value, Capacity(a.id))
          && (MayTruncate(a.id) ==> after.truncated[a.id] == (before.truncated[a.id] || |a.value| > Capacity(a.id))))
    && (forall id :: 0 <= id < FIELDS && id !in Ids(attributes) ==>
          && after.fields[id] == before.fields[id]
          && (MayTruncate(id) ==> after.truncated[id] == before.truncated[id]))
  }

  lemma {:induction false} HoldsOneMore(before: Record, mid: Record, after: Record, a: Attribute, rest: seq<Attribute>)
    requires ValidRecord(before) && ValidRecord(mid) && ValidRecord(after) && a.id < FIELDS && Known(rest)
    requires MayTruncate(a.id) || |a.value| <= Capacity(a.id)
    requires a.id !in Ids(rest)
    requires mid.fields == before.fields[a.id := FieldAfter(before.fields[a.id], a.value, Capacity(a.id))]
    requires mid.truncated == if |a.value| > Capacity(a.id) then before.truncated[a.id := true] else before.truncated
    requires Holds(mid, after, rest)
    ensures Holds(before, after, [a] + rest)
  {
    var all := [a] + rest;
    assert all[1..] == rest;
    forall i | 0 <= i < |all|
      ensures after.fields[all[i].id] == FieldAfter(before.fields[all[i].id], all[i].value, Capacity(all[i].id))
      ensures MayTruncate(all[i].id) ==>
          after.truncated[all[i].id] == (before.truncated[all[i].id] || |all[i].value| > Capacity(all[i].id))
    {
      if i > 0 {
        assert all[i] == rest[i - 1];
      }
    }
  }

  lemma {:induction false} IdsOf(attributes: seq<Attribute>, id: nat)
    ensures id in Ids(attributes) <==> exists i :: 0 <= i < |attributes| && attributes[i].id == id
  {
    if attributes != [] {
      IdsOf(attributes[1..], id);
      if id in Ids(attributes[1..]) {
        var i :| 0 <= i < |attributes| - 1 && attributes[1..][i].id == id;
        assert attributes[i + 1].id == id;
      }
    }
  }

  /** s' is s after the given admissible attributes. */
  ghost predicate Fed(s: State, s': State, attributes: seq<Attribute>)
    requires ValidState(s) && ValidState(s') && Known(attributes)
  {
    && s'.expectedMask == s.expectedMask && s'.expectedUid == s.expectedUid && s'.errorCode == s.errorCode
    && s'.receivedMask == s.receivedMask + Ids(attributes)
    && s'.phase == (if s.expectedMask <= s'.receivedMask then Completed else AttributeId)
    && Holds(s.record, s'.record, attributes)
    && (s'.phase == Completed ==> s'.record.complete && s'.record.errorCode == Ok)
  }

  lemma FedNone(s: State)
    requires ValidState(s) && s.phase == (if s.expectedMask <= s.receivedMask then Completed else AttributeId)
    requires s.phase == Completed ==> s.record.complete && s.record.errorCode == Ok
    ensures Fed(s, s, [])
  {
  }

  lemma FedOneMore(s: State, s1: State, s': State, a: Attribute, rest: seq<Attribute>)
    requires ValidState(s) && s.phase == AttributeId && a.id < FIELDS && |a.value| < 0x1_0000
    requires MayTruncate(a.id) || |a.value| <= Capacity(a.id)
    requires s1 == FinishAttribute(Filled(s, a)) && ValidState(s') && Known(rest) && a.id !in Ids(rest)
    requires Fed(s1, s', rest)
    ensures Fed(s, s', [a] + rest)
  {
    FinishStores(s, a);
    HoldsOneMore(s.record, s1.record, s'.record, a, rest);
    assert ([a] + rest)[1..] == rest;
  }

  lemma {:induction false} FeedAll(s: State, attributes: seq<Attribute>)
    requires ValidState(s) && s.phase == AttributeId && !(s.expectedMask <= s.receivedMask)
    requires Admissible(attributes, s.expectedMask) && Ids(attributes) !! s.receivedMask
    ensures Known(attributes) && Fed(s, Run(s, EncodedAll(attributes)), attributes)
    decreases |attributes|
  {
    hide Fed, Admissible;
    if attributes == [] {
      FedNone(s);
    } else {
      var a, rest := attributes[0], attributes[1..];
      AdmissibleSplit(attributes, s.expectedMask);
      FeedAttribute(s, a);
      RunAppend(s, Encoded(a), EncodedAll(rest));
      FinishStores(s, a);
      var s1 := FinishAttribute(Filled(s, a));
      if s1.phase == AttributeId {
        FeedAll(s1, rest);
      } else {
        NothingLeft(s, attributes);
        FedNone(s1);
      }
      FedOneMore(s, s1, Run(s1, EncodedAll(rest)), a, rest);
      assert attributes == [a] + rest;
    }
  }

  lemma AdmissibleSplit(attributes: seq<Attribute>, mask: set<nat>)
    requires Admissible(attributes, mask) && attributes != []
    ensures Known(attributes) && Admissible(attributes[1..], mask)
    ensures var a := attributes[0];
            && a.id in mask && |a.value| < 0x1_0000 && (MayTruncate(a.id) || |a.value| <= Capacity(a.id))
            && a.id !in Ids(attributes[1..])
  {
    IdsOf(attributes[1..], attributes[0].id);
  }

  /** The attribute that completes the mask is the last admissible one. */
  lemma NothingLeft(s: State, attributes: seq<Attribute>)
    requires attributes != [] && s.expectedMask <= s.receivedMask + {attributes[0].id}
    requires Admissible(attributes, s.expectedMask) && Ids(attributes) !! s.receivedMask
    ensures |attributes| == 1
  {
    if |attributes| > 1 {
      IdsOf(attributes, attributes[1].id);
      assert false;
    }
  }

  lemma {:induction false} FeedHeader(s: State, uid: nat)
    requires ValidState(s) && s.phase == Command && uid < 0x1_0000_0000
    ensures var s' := Run(s, Header(uid));
            if uid == s.expectedUid then s' == s.(responseUid := uid, uidBytesRead := 4, phase := AttributeId)
            else FailedWith(s', ErrUidMismatch)
  {
    var bytes := ToLe(uid, 4);
    assert Header(uid)[0] == 0 && Header(uid)[1..] == bytes;
    var s0 := Step(s, 0);
    FeedUid(s0, bytes, 0);
    assert bytes[0..] == bytes && bytes[..0] == [];
    assert Weight(4) == 0x1_0000_0000 by {
      assert Weight(1) == 256 && Weight(2) == 256 * Weight(1) && Weight(3) == 256 * Weight(2);
    }
  }

  lemma {:induction false} FeedUid(s: State, bytes: seq<Byte>, k: nat)
    requires ValidState(s) && s.phase == Uid && |bytes| == 4 && s.uidBytesRead == k < 4
    requires s.responseUid == FromLe(bytes[..k])
    ensures var s' := Run(s, bytes[k..]);
            if FromLe(bytes) == s.expectedUid then s' == s.(responseUid := FromLe(bytes), uidBytesRead := 4, phase := AttributeId)
            else FailedWith(s', ErrUidMismatch)
    decreases 4 - k
  {
    var s1 := Step(s, bytes[k]);
    FromLeAppend(bytes[..k], bytes[k]);
    assert bytes[..k] + [bytes[k]] == bytes[..k + 1];
    assert bytes[k..][1..] == bytes[k + 1..];
    if k == 3 {
      assert bytes[..4] == bytes && bytes[4..] == [];
    } else {
      FeedUid(s1, bytes, k + 1);
    }
  }

  /** Every answer to the request is accepted, and its values are in their fields. */
  lemma {:induction false} AnswerIsStored(record: Record, uid: nat, mask: set<nat>, attributes: seq<Attribute>)
    requires ValidRecord(record) && uid < 0x1_0000_0000 && mask * REQUIRED != {}
    requires Answers(attributes, mask * REQUIRED)
    ensures Known(attributes)
    ensures var s := Run(Started(record, uid, mask), Response(uid, attributes));
            && ResultOf(s) == Complete
            && s.record.complete && s.record.errorCode == Ok
            && Holds(record, s.record, attributes)
            && forall a <- attributes :: a.id <= 3 ==>
                 (s.record.truncated[a.id] <==> record.truncated[a.id] || |a.value| > [256, 512, 512, 4096][a.id])
  {
    var s := Started(record, uid, mask);
    FeedHeader(s, uid);
    RunAppend(s, Header(uid), EncodedAll(attributes));
    FeedAll(Run(s, Header(uid)), attributes);
  }

  // ---------- Only answers are accepted ----------

  /**
   * How the bytes consumed so far read as a beginning of a response: the
   * attributes already finished and the raw bytes of the item being read.
   */
  ghost predicate Tracks(s: State, uid: nat, mask: set<nat>, done: seq<Attribute>, current: seq<Byte>, consumed: seq<Byte>)
  {
    && ValidState(s) && s.expectedUid == uid && s.expectedMask == mask
    && Known(done) && Admissible(done, mask) && s.receivedMask == Ids(done)
    && match s.phase
       case Command => consumed == [] && done == []
       case Uid => done == [] && |current| == s.uidBytesRead && s.responseUid == FromLe(current) && consumed == [0] + current
       case AttributeId => consumed == Response(uid, done)
       case AttributeLength =>
         && s.attributeId < FIELDS && s.attributeId in mask && s.attributeId !in s.receivedMask
         && |current| == s.lengthBytesRead && s.attributeLength == FromLe(current)
         && consumed == Response(uid, done) + [s.attributeId] + current
       case AttributeValue =>
         && s.attributeId < FIELDS && s.attributeId in mask && s.attributeId !in s.receivedMask
         && |current| == s.attributeRead
         && consumed == Response(uid, done) + [s.attributeId] + ToLe(s.attributeLength, 2) + current
       case Completed => mask <= s.receivedMask && consumed == Response(uid, done)
       case Failed => true
  }

  lemma {:induction false} EncodedAllAppend(done: seq<Attribute>, a: Attribute)
    requires Known(done) && a.id < FIELDS
    ensures Known(done + [a]) && EncodedAll(done + [a]) == EncodedAll(done) + Encoded(a)
  {
    hide Encoded;
    var all := done + [a];
    if done == [] {
      assert all == [a] && all[1..] == [];
      assert EncodedAll(all) == Encoded(a) + EncodedAll([]);
    } else {
      EncodedAllAppend(done[1..], a);
      assert all[0] == done[0] && all[1..] == done[1..] + [a];
      assert EncodedAll(all) == Encoded(done[0]) + (EncodedAll(done[1..]) + Encoded(a));
    }
  }

  lemma {:induction false} IdsAppend(done: seq<Attribute>, a: Attribute)
    ensures Ids(done + [a]) == Ids(done) + {a.id}
  {
    if done == [] {
      assert done + [a] == [a];
    } else {
      assert (done + [a])[1..] == done[1..] + [a];
      IdsAppend(done[1..], a);
    }
  }

  lemma {:induction false} TracksFinish(s: State, uid: nat, mask: set<nat>, done: seq<Attribute>,
                                        value: seq<Byte>, consumed: seq<Byte>)
    requires ValidRecord(s.record) && s.expectedUid == uid && s.expectedMask == mask
    requires Known(done) && Admissible(done, mask) && s.receivedMask == Ids(done)
    requires s.attributeId < FIELDS && s.attributeId in mask && s.attributeId !in s.receivedMask
    requires |value| == s.attributeLength < 0x1_0000
    requires consumed == Response(uid, done) + Encoded(Attribute(s.attributeId, value))
    requires FinishAttribute(s).phase != Failed
    ensures Known(done + [Attribute(s.attributeId, value)])
    ensures Tracks(FinishAttribute(s), uid, mask, done + [Attribute(s.attributeId, value)], [], consumed)
  {
    hide Admissible, ValidState, ValidRecord, EncodedAll;
    var a := Attribute(s.attributeId, value);
    EncodedAllAppend(done, a);
    IdsAppend(done, a);
    AdmissibleAppend(done, a, mask);
    assert Response(uid, done + [a]) == Response(uid, done) + Encoded(a);
  }

  lemma AdmissibleAppend(done: seq<Attribute>, a: Attribute, mask: set<nat>)
    requires Admissible(done, mask) && a.id in mask && a.id < FIELDS && a.id !in Ids(done) && |a.value| < 0x1_0000
    requires MayTruncate(a.id) || |a.value| <= Capacity(a.id)
    ensures Admissible(done + [a], mask)
  {
  }

  lemma {:induction false} TracksUid(s: State, uid: nat, mask: set<nat>, current: seq<Byte>, consumed: seq<Byte>, byte: Byte)
    requires s.phase == Uid && Tracks(s, uid, mask, [], current, consumed)
    requires Step(s, byte).phase != Failed
    ensures Tracks(Step(s, byte), uid, mask, [], current + [byte], consumed + [byte])
  {
    FromLeAppend(current, byte);
    var bytes := current + [byte];
    assert consumed + [byte] == [0] + bytes;
    if |bytes| == 4 {
      ToLeFromLe(bytes);
      assert Response(uid, []) == [0] + bytes;
    }
  }

  lemma {:induction false} TracksLength(s: State, uid: nat, mask: set<nat>, done: seq<Attribute>,
                                        current: seq<Byte>, consumed: seq<Byte>, byte: Byte)
    returns (done': seq<Attribute>, current': seq<Byte>)
    requires s.phase == AttributeLength && Tracks(s, uid, mask, done, current, consumed)
    requires Step(s, byte).phase != Failed
    ensures Tracks(Step(s, byte), uid, mask, done', current', consumed + [byte])
  {
    hide Admissible;
    FromLeAppend(current, byte);
    LengthFits(s.attributeLength, s.lengthBytesRead, byte);
    var bytes := current + [byte];
    var before := Response(uid, done) + [s.attributeId];
    assert consumed + [byte] == before + bytes;
    done', current' := done, bytes;
    if |bytes| == 2 {
      ToLeFromLe(bytes);
      var s1 := s.(attributeLength := FromLe(bytes), lengthBytesRead := 2);
      if FromLe(bytes) == 0 {
        assert consumed + [byte] == Response(uid, done) + Encoded(Attribute(s.attributeId, []));
        TracksFinish(s1, uid, mask, done, [], consumed + [byte]);
        done', current' := done + [Attribute(s.attributeId, [])], [];
      } else {
        current' := [];
        assert consumed + [byte] == before + ToLe(s1.attributeLength, 2) + [];
      }
    }
  }

  lemma {:induction false} TracksValue(s: State, uid: nat, mask: set<nat>, done: seq<Attribute>,
                                       current: seq<Byte>, consumed: seq<Byte>, byte: Byte)
    returns (done': seq<Attribute>, current': seq<Byte>)
    requires s.phase == AttributeValue && Tracks(s, uid, mask, done, current, consumed)
    requires Step(s, byte).phase != Failed
    ensures Tracks(Step(s, byte), uid, mask, done', current', consumed + [byte])
  {
    var bytes := current + [byte];
    var before := Response(uid, done) + [s.attributeId] + ToLe(s.attributeLength, 2);
    assert consumed + [byte] == before + bytes;
    done', current' := done, bytes;
    if |bytes| == s.attributeLength {
      var record := if s.attributeRead < Capacity(s.attributeId)
                    then Put(s.record, s.attributeId, s.attributeRead, byte) else s.record;
      var s1 := s.(record := record, attributeRead := s.attributeRead + 1);
      assert consumed + [byte] == Response(uid, done) + Encoded(Attribute(s.attributeId, bytes));
      TracksFinish(s1, uid, mask, done, bytes, consumed + [byte]);
      done', current' := done + [Attribute(s.attributeId, bytes)], [];
    }
  }

  lemma {:induction false} TracksStep(s: State, uid: nat, mask: set<nat>, done: seq<Attribute>,
                                      current: seq<Byte>, consumed: seq<Byte>, byte: Byte)
    returns (done': seq<Attribute>, current': seq<Byte>)
    requires Tracks(s, uid, mask, done, current, consumed) && s.phase != Failed
    requires Step(s, byte).phase != Failed
    ensures Tracks(Step(s, byte), uid, mask, done', current', consumed + [byte])
  {
    match s.phase
    case Command =>
      done', current' := [], [];
    case Uid =>
      TracksUid(s, uid, mask, current, consumed, byte);
      done', current' := [], current + [byte];
    case AttributeId =>
      done', current' := done, [];
      assert consumed + [byte] == Response(uid, done) + [byte] + [];
    case AttributeLength =>
      done', current' := TracksLength(s, uid, mask, done, current, consumed, byte);
    case AttributeValue =>
      done', current' := TracksValue(s, uid, mask, done, current, consumed, byte);
  }

  lemma {:induction false} TracksRun(s: State, uid: nat, mask: set<nat>, bytes: seq<Byte>)
    returns (done: seq<Attribute>, current: seq<Byte>)
    requires ValidState(s) && s.phase == Command && s.expectedUid == uid && s.expectedMask == mask && s.receivedMask == {}
    requires Run(s, bytes).phase != Failed
    ensures Tracks(Run(s, bytes), uid, mask, done, current, bytes)
    decreases |bytes|
  {
    if bytes == [] {
      done, current := [], [];
    } else {
      var n := |bytes| - 1;
      var before, last := bytes[..n], bytes[n];
      assert bytes == before + [last];
      RunAppend(s, before, [last]);
      var mid := Run(s, before);
      assert Run(mid, [last]) == Step(mid, last) by {
        assert [last][1..] == [];
      }
      if mid.phase == Failed {
        assert false;
      }
      done, current := TracksRun(s, uid, mask, before);
      done, current := TracksStep(mid, uid, mask, done, current, before, last);
    }
  }

  /**
   * The parser reports completion exactly on the answers to its request: the
   * command, the expected id, and each requested attribute once, in any order.
   */
  lemma {:induction false} CompleteIffAnswer(record: Record, uid: nat, mask: set<nat>, bytes: seq<Byte>)
    requires ValidRecord(record) && uid < 0x1_0000_0000
    ensures ResultOf(Run(Started(record, uid, mask), bytes)) == Complete
            <==> (mask * REQUIRED != {} && exists attributes: seq<Attribute> ::
                    Known(attributes) && Answers(attributes, mask * REQUIRED) && bytes == Response(uid, attributes))
  {
    var s := Started(record, uid, mask);
    if mask * REQUIRED == {} {
      FailedAbsorbs(s, bytes);
    } else {
      if ResultOf(Run(s, bytes)) == Complete {
        var done, current := TracksRun(s, uid, mask * REQUIRED, bytes);
        assert Answers(done, mask * REQUIRED) && bytes == Response(uid, done);
      }
      forall attributes: seq<Attribute> | Known(attributes) && Answers(attributes, mask * REQUIRED) && bytes == Response(uid, attributes)
        ensures ResultOf(Run(s, bytes)) == Complete
      {
        AnswerIsStored(record, uid, mask, attributes);
      }
    }
  }

  // ---------- Which fault a malformed answer reports ----------

  /** After an admissible beginning of an answer the parser waits for an attribute id. */
  lemma {:induction false} AfterBeginning(record: Record, uid: nat, mask: set<nat>, done: seq<Attribute>)
    requires ValidRecord(record) && uid < 0x1_0000_0000 && mask * REQUIRED != {}
    requires Known(done) && Admissible(done, mask * REQUIRED) && !(mask * REQUIRED <= Ids(done))
    ensures var s := Run(Started(record, uid, mask), Response(uid, done));
            s.phase == AttributeId && s.expectedMask == mask * REQUIRED && s.receivedMask == Ids(done)
  {
    var s := Started(record, uid, mask);
    FeedHeader(s, uid);
    RunAppend(s, Header(uid), EncodedAll(done));
    FeedAll(Run(s, Header(uid)), done);
  }

  ghost predicate Reports(s: State, bytes: seq<Byte>, code: Code)
    requires ValidState(s)
  {
    FailedWith(Run(s, bytes), code)
  }

  lemma {:induction false} ReportsAtOnce(s: State, byte: Byte, rest: seq<Byte>)
    requires ValidState(s) && Step(s, byte).phase == Failed
    ensures Run(s, [byte] + rest) == Step(s, byte)
  {
    assert ([byte] + rest)[1..] == rest;
    FailedAbsorbs(Step(s, byte), rest);
  }

  lemma {:induction false} WrongCommandIsReported(record: Record, uid: nat, mask: set<nat>, command: Byte, rest: seq<Byte>)
    requires ValidRecord(record) && mask * REQUIRED != {} && command != 0
    ensures Reports(Started(record, uid, mask), [command] + rest, ErrCommand)
  {
    ReportsAtOnce(Started(record, uid, mask), command, rest);
  }

  lemma {:induction false} WrongUidIsReported(record: Record, uid: nat, mask: set<nat>, other: nat, rest: seq<Byte>)
    requires ValidRecord(record) && mask * REQUIRED != {} && other < 0x1_0000_0000 && other != uid
    ensures Reports(Started(record, uid, mask), Header(other) + rest, ErrUidMismatch)
  {
    var s := Started(record, uid, mask);
    FeedHeader(s, other);
    RunAppend(s, Header(other), rest);
    FailedAbsorbs(Run(s, Header(other)), rest);
  }

  /** An attribute that is unknown, was not requested, or was already received. */
  lemma {:induction false} WrongAttributeIsReported(
      record: Record, uid: nat, mask: set<nat>, done: seq<Attribute>, id: Byte, rest: seq<Byte>)
    requires ValidRecord(record) && uid < 0x1_0000_0000 && mask * REQUIRED != {}
    requires Known(done) && Admissible(done, mask * REQUIRED) && !(mask * REQUIRED <= Ids(done))
    requires id !in mask * REQUIRED - Ids(done)
    ensures Reports(Started(record, uid, mask), Response(uid, done) + ([id] + rest), if id > 5 then ErrAttribute else ErrSequence)
  {
    var s := Started(record, uid, mask);
    AfterBeginning(record, uid, mask, done);
    RunAppend(s, Response(uid, done), [id] + rest);
    ReportsAtOnce(Run(s, Response(uid, done)), id, rest);
  }

  /** A message size or date longer than its field. */
  lemma {:induction false} LongAttributeIsReported(
      record: Record, uid: nat, mask: set<nat>, done: seq<Attribute>, a: Attribute, rest: seq<Byte>)
    requires ValidRecord(record) && uid < 0x1_0000_0000 && mask * REQUIRED != {}
    requires Known(done) && Admissible(done, mask * REQUIRED) && a.id in mask * REQUIRED - Ids(done)
    requires |a.value| < 0x1_0000 && ((a.id == 4 && |a.value| > 23) || (a.id == 5 && |a.value| > 32))
    ensures Reports(Started(record, uid, mask), Response(uid, done) + (Encoded(a) + rest), ErrOverflow)
  {
    var s := Started(record, uid, mask);
    AfterBeginning(record, uid, mask, done);
    var mid := Run(s, Response(uid, done));
    RunAppend(s, Response(uid, done), Encoded(a) + rest);
    RunAppend(mid, Encoded(a), rest);
    FeedAttribute(mid, a);
    FailedAbsorbs(Run(mid, Encoded(a)), rest);
  }

  /** Bytes after a complete answer. */
  lemma {:induction false} TrailingByteIsReported(
      record: Record, uid: nat, mask: set<nat>, attributes: seq<Attribute>, byte: Byte, rest: seq<Byte>)
    requires ValidRecord(record) && uid < 0x1_0000_0000 && mask * REQUIRED != {}
    requires Known(attributes) && Answers(attributes, mask * REQUIRED)
    ensures Reports(Started(record, uid, mask), Response(uid, attributes) + ([byte] + rest), ErrSequence)
  {
    var s := Started(record, uid, mask);
    AnswerIsStored(record, uid, mask, attributes);
    RunAppend(s, Response(uid, attributes), [byte] + rest);
    ReportsAtOnce(Run(s, Response(uid, attributes)), byte, rest);
  }

  // ---------- The parser object ----------

  function Zeros(n: nat): seq<Byte> {
    seq(n, _ => 0)
  }

  /** A notification record before anything is stored in it. */
  function Blank(): Record {
    Record([Zeros(257), Zeros(513), Zeros(513), Zeros(4097), Zeros(24), Zeros(33)], [false, false, false, false], false, Ok)
  }

  /** The text fields and outcome of a notification; one buffer per attribute id. */
  class Notification {
    const buffers: seq<array<Byte>>
    var truncated: seq<bool>
    var complete: bool
    var errorCode: Code

    ghost predicate Apart()
      requires |buffers| == FIELDS
    {
      forall i, j :: 0 <= i < j < FIELDS ==> buffers[i] != buffers[j]
    }

    /** Six buffers, one apart from the other, of the sizes of their fields. */
    ghost predicate Shaped() {
      && |buffers| == FIELDS && Apart()
      && (forall id :: 0 <= id < FIELDS ==> buffers[id].Length == Capacity(id) + 1)
    }

    ghost predicate Valid()
      reads this
    {
      Shaped() && |truncated| == 4
    }

    ghost function Fields(): (f: seq<seq<Byte>>)
      requires Shaped()
      reads buffers
      ensures |f| == FIELDS && forall id :: 0 <= id < FIELDS ==> f[id] == buffers[id][..]
    {
      [buffers[0][..], buffers[1][..], buffers[2][..], buffers[3][..], buffers[4][..], buffers[5][..]]
    }

    ghost function Contents(): (r: Record)
      requires Valid()
      reads this, buffers
      ensures ValidRecord(r)
    {
      Record(Fields(), truncated, complete, errorCode)
    }

    constructor ()
      ensures Valid() && fresh(buffers) && Contents() == Blank()
    {
      var appId := new Byte[257](_ => 0);
      var title := new Byte[513](_ => 0);
      var subtitle := new Byte[513](_ => 0);
      var message := new Byte[4097](_ => 0);
      var messageSize := new Byte[24](_ => 0);
      var date := new Byte[33](_ => 0);
      buffers := [appId, title, subtitle, message, messageSize, date];
      truncated := [false, false, false, false];
      complete, errorCode := false, Ok;
      new;
      assert appId[..] == Zeros(257) && title[..] == Zeros(513) && subtitle[..] == Zeros(513);
      assert message[..] == Zeros(4097) && messageSize[..] == Zeros(24) && date[..] == Zeros(33);
    }
  }

  class Parser {
    const notification: Notification
    const expectedUid: nat
    const expectedMask: set<nat>
    var receivedMask: set<nat>
    var responseUid: nat
    var attributeLength: nat
    var attributeRead: nat
    var phase: Phase
    var uidBytesRead: nat
    var attributeId: nat
    var lengthBytesRead: nat
    var errorCode: Code

    ghost function View(): State
      requires notification.Valid()
      reads this, notification, notification.buffers
    {
      State(notification.Contents(), expectedUid, expectedMask, receivedMask, responseUid, attributeLength, attributeRead,
            phase, uidBytesRead, attributeId, lengthBytesRead, errorCode)
    }

    ghost predicate Valid()
      reads this, notification, notification.buffers
    {
      notification.Valid() && ValidState(View())
    }

    constructor (notification: Notification, uid: nat, mask: set<nat>)
      requires notification.Valid()
      modifies notification
      ensures this.notification == notification && Valid()
      ensures View() == Started(old(notification.Contents()), uid, mask)
    {
      this.notification := notification;
      expectedUid := uid;
      expectedMask := mask * REQUIRED;
      receivedMask, responseUid, attributeLength, attributeRead := {}, 0, 0, 0;
      phase, uidBytesRead, attributeId, lengthBytesRead, errorCode := Command, 0, 0, 0, Ok;
      new;
      if expectedMask == {} {
        var _ := FailWith(ErrArgument);
      }
    }

    method FailWith(code: Code) returns (result: Result)
      requires notification.Valid()
      modifies this`phase, this`errorCode, notification`complete, notification`errorCode
      ensures notification.Valid() && View() == Fail(old(View()), code) && result == Error
    {
      phase := Failed;
      errorCode := code;
      notification.complete := false;
      notification.errorCode := code;
      return Error;
    }

    method Store(id: nat, at: nat, byte: Byte)
      requires notification.Valid() && id < FIELDS && at <= Capacity(id)
      modifies notification.buffers[id]
      ensures notification.Valid() && notification.Contents() == Put(old(notification.Contents()), id, at, byte)
    {
      ghost var before := notification.Contents();
      notification.buffers[id][at] := byte;
      ghost var after := notification.Contents();
      assert after.fields[id] == before.fields[id][at := byte];
      assert after.fields == Put(before, id, at, byte).fields;
    }

    method Terminate()
      requires notification.Valid() && attributeId <= 5
      modifies notification`truncated, notification.buffers[attributeId]
      ensures notification.Valid() && View() == old(View()).(record := Terminated(old(View())))
    {
      hide Notification.Fields, Notification.Apart;
      var capacity := Capacity(attributeId);
      var end := if attributeLength < capacity then attributeLength else capacity;
      Store(attributeId, end, 0);
      if attributeLength > capacity && MayTruncate(attributeId) {
        notification.truncated := notification.truncated[attributeId := true];
      }
    }

    method Account() returns (result: Result)
      requires notification.Valid() && attributeLength < 0x1_0000
      modifies this, notification`complete, notification`errorCode
      ensures Valid() && View() == Accounted(old(View())) && result == ResultOf(View())
    {
      hide Notification.Fields, Notification.Apart, ValidRecord;
      receivedMask := receivedMask + {attributeId};
      if expectedMask <= receivedMask {
        notification.complete := true;
        notification.errorCode := Ok;
        phase := Completed;
        return Complete;
      }
      phase := AttributeId;
      attributeLength, attributeRead, lengthBytesRead := 0, 0, 0;
      return More;
    }

    method Finish() returns (result: Result)
      requires notification.Valid() && attributeLength < 0x1_0000
      modifies this, notification, notification.buffers
      ensures Valid() && View() == FinishAttribute(old(View())) && result == ResultOf(View())
    {
      hide Notification.Fields, Notification.Apart, Terminated, Accounted, ValidRecord;
      if attributeId > 5 {
        result := FailWith(ErrAttribute);
        return;
      }
      Terminate();
      if attributeLength > Capacity(attributeId) && !MayTruncate(attributeId) {
        result := FailWith(ErrOverflow);
      } else {
        result := Account();
      }
    }

    method AcceptUid(byte: Byte) returns (result: Result)
      requires Valid() && phase == Uid
      modifies this, notification`complete, notification`errorCode
      ensures Valid() && View() == StepUid(old(View()), byte) && result == ResultOf(View())
    {
      hide Notification.Fields, Notification.Apart, FinishAttribute;
      responseUid := responseUid + Weight(uidBytesRead) * byte;
      uidBytesRead := uidBytesRead + 1;
      result := More;
      if uidBytesRead == 4 {
        if responseUid != expectedUid {
          result := FailWith(ErrUidMismatch);
        } else {
          phase := AttributeId;
        }
      }
    }

    method AcceptAttributeId(byte: Byte) returns (result: Result)
      requires Valid() && phase == AttributeId
      modifies this, notification`complete, notification`errorCode
      ensures Valid() && View() == StepAttributeId(old(View()), byte) && result == ResultOf(View())
    {
      hide Notification.Fields, Notification.Apart, FinishAttribute;
      if byte > 5 {
        result := FailWith(ErrAttribute);
        return;
      }
      if byte !in expectedMask || byte in receivedMask {
        result := FailWith(ErrSequence);
        return;
      }
      attributeId, attributeLength, attributeRead, lengthBytesRead := byte, 0, 0, 0;
      phase := AttributeLength;
      return More;
    }

    method AcceptLength(byte: Byte) returns (result: Result)
      requires Valid() && phase == AttributeLength
      modifies this, notification, notification.buffers
      ensures Valid() && View() == StepLength(old(View()), byte) && result == ResultOf(View())
    {
      hide Notification.Fields, Notification.Apart, FinishAttribute;
      LengthFits(attributeLength, lengthBytesRead, byte);
      attributeLength := attributeLength + Weight(lengthBytesRead) * byte;
      lengthBytesRead := lengthBytesRead + 1;
      result := More;
      if lengthBytesRead == 2 {
        if attributeLength == 0 {
          result := Finish();
        } else {
          phase := AttributeValue;
        }
      }
    }

    method AcceptValue(byte: Byte) returns (result: Result)
      requires Valid() && phase == AttributeValue
      modifies this, notification, notification.buffers
      ensures Valid() && View() == StepValue(old(View()), byte) && result == ResultOf(View())
    {
      hide Notification.Fields, Notification.Apart, FinishAttribute;
      if attributeId > 5 {
        result := FailWith(ErrAttribute);
        return;
      }
      if attributeRead < Capacity(attributeId) {
        Store(attributeId, attributeRead, byte);
      }
      attributeRead := attributeRead + 1;
      result := More;
      if attributeRead == attributeLength {
        result := Finish();
      }
    }

    /** One byte in a state that still takes bytes. */
    method Accept(byte: Byte) returns (result: Result)
      requires Valid() && phase != Completed && phase != Failed
      modifies this, notification, notification.buffers
      ensures Valid() && View() == Step(old(View()), byte) && result == ResultOf(View())
    {
      match phase
      case Command =>
        if byte != 0 {
          result := FailWith(ErrCommand);
        } else {
          responseUid, uidBytesRead, phase := 0, 0, Uid;
          result := More;
        }
      case Uid =>
        result := AcceptUid(byte);
      case AttributeId =>
        result := AcceptAttributeId(byte);
      case AttributeLength =>
        result := AcceptLength(byte);
      case AttributeValue =>
        result := AcceptValue(byte);
    }

    method Feed(bytes: seq<Byte>) returns (result: Result)
      requires Valid()
      modifies this, notification, notification.buffers
      ensures Valid() && View() == Run(old(View()), bytes) && result == ResultOf(View())
    {
      hide Notification.Fields, Notification.Apart, ValidRecord, StepUid, StepAttributeId, StepLength, StepValue;
      ghost var start := View();
      if phase == Failed {
        FailedAbsorbs(start, bytes);
        return Error;
      }
      if phase == Completed {
        if |bytes| == 0 {
          return Complete;
        }
        result := FailWith(ErrSequence);
        FailedAbsorbs(View(), bytes[1..]);
        return;
      }
      for index := 0 to |bytes|
        invariant Valid() && phase != Completed && phase != Failed
        invariant Run(View(), bytes[index..]) == Run(start, bytes)
      {
        ghost var rest := bytes[index..];
        assert rest[0] == bytes[index] && rest[1..] == bytes[index + 1..];
        result := Accept(bytes[index]);
        if result != More {
          if result == Complete && index + 1 < |bytes| {
            result := FailWith(ErrSequence);
            FailedAbsorbs(View(), rest[2..]);
            assert rest[1..][1..] == rest[2..];
            return;
          }
          if result == Error {
            FailedAbsorbs(View(), rest[1..]);
          }
          return;
        }
      }
      return More;
    }
  }
}
