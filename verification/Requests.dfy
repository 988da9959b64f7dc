/** The two Control Point requests, and what the parsers make of an answer to them. */
module Requests {

  // The limits a request states are the sizes of the fields it fills, so an answer
  // that obeys the request is stored whole, and the app a request asks for is the
  // app the parser expects back.

  import opened AncsProtocol
  import opened Bytes
  import AppParser
  import DataParser

  const NOTIFICATION_REQUEST_LENGTH: nat := 17

  function Limited(id: Byte, limit: nat, rest: seq<Byte>): (s: seq<Byte>)
    requires limit < 0x1_0000
  {
    [id] + ToLe(limit, 2) + rest
  }

  /** All six attributes, with limits for the three long texts. */
  function AttributeList(): (s: seq<Byte>)
    ensures |s| == 12
  {
    [0] + Limited(1, 512, Limited(2, 512, Limited(3, 4096, [4, 5])))
  }

  /** Get Notification Attributes. */
  function NotificationRequest(uid: nat): (bytes: seq<Byte>)
    ensures |bytes| == NOTIFICATION_REQUEST_LENGTH
  {
    [0] + ToLe(uid, 4) + AttributeList()
  }

  /** Get App Attributes for the display name of an app. */
  function AppRequest(appId: seq<Byte>): seq<Byte> {
    [1] + appId + [0] + [0]
  }

  // ---------- Reading a request, as the phone does ----------

  /** A requested attribute and the limit that follows it for titles, subtitles and messages. */
  datatype Wanted = Wanted(id: nat, limit: nat)

  const UNLIMITED: nat := 0x1_0000

  datatype Wish = NoWish | Wish(all: seq<Wanted>)

  /** The attribute list of a request: ids 1 to 3 are followed by a 16-bit limit. */
  function ReadWanted(bytes: seq<Byte>): Wish {
    if bytes == [] then Wish([])
    else if 1 <= bytes[0] <= 3 then
      if |bytes| < 3 then NoWish
      else
        var rest := ReadWanted(bytes[3..]);
        if rest.NoWish? then NoWish else Wish([Wanted(bytes[0], FromLe(bytes[1..3]))] + rest.all)
    else
      var rest := ReadWanted(bytes[1..]);
      if rest.NoWish? then NoWish else Wish([Wanted(bytes[0], UNLIMITED)] + rest.all)
  }

  lemma ReadLimited(id: Byte, limit: nat, rest: seq<Byte>)
    requires 1 <= id <= 3 && limit < 0x1_0000 && ReadWanted(rest).Wish?
    ensures ReadWanted(Limited(id, limit, rest)) == Wish([Wanted(id, limit)] + ReadWanted(rest).all)
  {
    var s := Limited(id, limit, rest);
    assert Weight(1) == 256 && Weight(2) == 0x1_0000;
    assert s[1..3] == ToLe(limit, 2) && s[3..] == rest;
  }

  lemma ReadPlain(id: Byte, rest: seq<Byte>)
    requires !(1 <= id <= 3) && ReadWanted(rest).Wish?
    ensures ReadWanted([id] + rest) == Wish([Wanted(id, UNLIMITED)] + ReadWanted(rest).all)
  {
    assert ([id] + rest)[1..] == rest;
  }

  /** What a notification request wants: each attribute once, limited to its field. */
  function AllWanted(): seq<Wanted> {
    [Wanted(0, UNLIMITED), Wanted(1, DataParser.Capacity(1)), Wanted(2, DataParser.Capacity(2)),
     Wanted(3, DataParser.Capacity(3)), Wanted(4, UNLIMITED), Wanted(5, UNLIMITED)]
  }

  /** The phone reads back the notification id and exactly the wanted attributes and limits. */
  lemma {:induction false} RequestReadsBack(uid: nat)
    requires uid < 0x1_0000_0000
    ensures var r := NotificationRequest(uid);
            r[0] == 0 && FromLe(r[1..5]) == uid && ReadWanted(r[5..]) == Wish(AllWanted())
  {
    hide ReadWanted, Limited;
    var r := NotificationRequest(uid);
    assert Weight(1) == 256 && Weight(2) == 256 * Weight(1) && Weight(3) == 256 * Weight(2) && Weight(4) == 256 * Weight(3);
    assert r[1..5] == ToLe(uid, 4);
    assert r[5..] == AttributeList();
    ReadTail();
    ReadLimited(3, 4096, [4, 5]);
    ReadLimited(2, 512, Limited(3, 4096, [4, 5]));
    ReadLimited(1, 512, Limited(2, 512, Limited(3, 4096, [4, 5])));
    ReadPlain(0, Limited(1, 512, Limited(2, 512, Limited(3, 4096, [4, 5]))));
  }

  lemma ReadTail()
    ensures ReadWanted([4, 5]) == Wish([Wanted(4, UNLIMITED), Wanted(5, UNLIMITED)])
  {
    ReadPlain(5, []);
    ReadPlain(4, [5]);
  }

  /** The answer gives every wanted attribute once and keeps its limit. */
  ghost predicate Obeys(attributes: seq<DataParser.Attribute>, wanted: seq<Wanted>) {
    && (forall i, j :: 0 <= i < j < |attributes| ==> attributes[i].id != attributes[j].id)
    && (forall i :: 0 <= i < |attributes| ==>
          exists k :: 0 <= k < |wanted| && wanted[k].id == attributes[i].id && |attributes[i].value| <= wanted[k].limit)
    && (forall k :: 0 <= k < |wanted| ==> exists i :: 0 <= i < |attributes| && attributes[i].id == wanted[k].id)
  }

  /** Every value of an answer is in its field in full, with its terminator, and nothing is flagged as cut. */
  ghost predicate StoredWhole(record: DataParser.Record, attributes: seq<DataParser.Attribute>)
    requires DataParser.ValidRecord(record)
  {
    && record.truncated == [false, false, false, false]
    && forall i :: 0 <= i < |attributes| ==>
         var a := attributes[i];
         && a.id < DataParser.FIELDS && |a.value| <= DataParser.Capacity(a.id)
         && record.fields[a.id][..|a.value|] == a.value && record.fields[a.id][|a.value|] == 0
  }

  lemma ObedientFits(attributes: seq<DataParser.Attribute>, i: nat)
    requires Obeys(attributes, AllWanted()) && i < |attributes|
    requires var a := attributes[i];
             (a.id == 0 ==> |a.value| <= 256) && (a.id == 4 ==> |a.value| <= 23) && (a.id == 5 ==> |a.value| <= 32)
    ensures attributes[i].id < 6 && |attributes[i].value| <= DataParser.Capacity(attributes[i].id)
  {
    hide AllWanted;
    var wanted := AllWanted();
    var k :| 0 <= k < |wanted| && wanted[k].id == attributes[i].id && |attributes[i].value| <= wanted[k].limit;
    AtWanted(k);
  }

  lemma ObedientHas(attributes: seq<DataParser.Attribute>, id: nat)
    requires Obeys(attributes, AllWanted()) && id < 6
    ensures id in DataParser.Ids(attributes)
  {
    hide AllWanted, DataParser.Ids;
    var wanted := AllWanted();
    AtWanted(id);
    var i :| 0 <= i < |attributes| && attributes[i].id == wanted[id].id;
  }

  lemma ObedientAnswers(attributes: seq<DataParser.Attribute>)
    requires Obeys(attributes, AllWanted())
    requires forall a <- attributes ::
               (a.id == 0 ==> |a.value| <= 256) && (a.id == 4 ==> |a.value| <= 23) && (a.id == 5 ==> |a.value| <= 32)
    ensures DataParser.Answers(attributes, DataParser.REQUIRED)
    ensures forall i :: 0 <= i < |attributes| ==> |attributes[i].value| <= DataParser.Capacity(attributes[i].id)
  {
    hide AllWanted, DataParser.Ids;
    forall i: nat | i < |attributes|
      ensures attributes[i].id < 6 && |attributes[i].value| <= DataParser.Capacity(attributes[i].id)
    {
      ObedientFits(attributes, i);
    }
    forall id: nat | id < 6
      ensures id in DataParser.Ids(attributes)
    {
      ObedientHas(attributes, id);
    }
  }

  lemma AtWanted(k: nat)
    ensures |AllWanted()| == 6
    ensures k < 6 ==> AllWanted()[k].id == k && (1 <= k <= 3 ==> AllWanted()[k].limit == DataParser.Capacity(k))
  {
  }

  lemma {:induction false} HeldWhole(record: DataParser.Record, attributes: seq<DataParser.Attribute>)
    requires DataParser.ValidRecord(record) && DataParser.Known(attributes)
    requires DataParser.Answers(attributes, DataParser.REQUIRED)
    requires forall i :: 0 <= i < |attributes| ==> |attributes[i].value| <= DataParser.Capacity(attributes[i].id)
    requires DataParser.Holds(DataParser.Blank(), record, attributes)
    ensures StoredWhole(record, attributes)
  {
    forall id | 0 <= id < 4
      ensures !record.truncated[id]
    {
      assert id in DataParser.REQUIRED;
      DataParser.IdsOf(attributes, id);
    }
  }

  /**
   * An answer that obeys the request, and whose unlimited attributes fit their
   * fields, is accepted without cutting anything.
   */
  lemma {:induction false} ObedientAnswerIsWhole(uid: nat, attributes: seq<DataParser.Attribute>)
    requires uid < 0x1_0000_0000 && Obeys(attributes, AllWanted())
    requires forall a <- attributes ::
               (a.id == 0 ==> |a.value| <= 256) && (a.id == 4 ==> |a.value| <= 23) && (a.id == 5 ==> |a.value| <= 32)
    ensures DataParser.Known(attributes)
    ensures var s := DataParser.Run(DataParser.Started(DataParser.Blank(), uid, DataParser.REQUIRED),
                                    DataParser.Response(uid, attributes));
            DataParser.ResultOf(s) == Complete && StoredWhole(s.record, attributes)
  {
    hide StoredWhole, Obeys, DataParser.Holds, DataParser.Run, DataParser.Answers;
    ObedientAnswers(attributes);
    assert DataParser.REQUIRED * DataParser.REQUIRED == DataParser.REQUIRED;
    DataParser.AnswerIsStored(DataParser.Blank(), uid, DataParser.REQUIRED, attributes);
    var s := DataParser.Run(DataParser.Started(DataParser.Blank(), uid, DataParser.REQUIRED), DataParser.Response(uid, attributes));
    HeldWhole(s.record, attributes);
  }

  /** An answer repeats the request up to the attribute, and gives its length and value. */
  function AppAnswer(appId: seq<Byte>, display: seq<Byte>): seq<Byte> {
    AppRequest(appId) + ToLe(|display|, 2) + display
  }

  /**
   * An answer to the request for an app's name completes the parser that waits
   * for that app, and a name that fits is stored whole.
   */
  lemma ObedientAppAnswerIsWhole(name: AppParser.Name, appId: seq<Byte>, display: seq<Byte>)
    requires |name.buffer| == AppParser.APP_NAME_MAX + 1
    requires 0 < |appId| <= 256 && 0 !in appId && |display| <= 256
    ensures var s := AppParser.Run(AppParser.Started(name, appId), AppAnswer(appId, display));
            && AppParser.ResultOf(s) == Complete && !s.name.truncated
            && s.name.buffer[..|display|] == display && s.name.buffer[|display|] == 0
  {
    hide AppParser.Run;
    assert AppAnswer(appId, display) == AppParser.Response(appId, display);
    AppParser.AnswerIsStored(name, appId, display);
  }

  // ---------- The builders ----------

  method BuildNotificationRequest(uid: nat, output: array<Byte>) returns (error: Code, length: nat)
    requires uid < 0x1_0000_0000
    modifies output
    ensures error == (if output.Length < NOTIFICATION_REQUEST_LENGTH then ErrOverflow else Ok)
    ensures error == Ok ==> length == NOTIFICATION_REQUEST_LENGTH && output[..length] == NotificationRequest(uid)
    ensures error == Ok ==> output[length..] == old(output[length..])
    ensures error != Ok ==> length == 0 && output[..] == old(output[..])
  {
    if output.Length < NOTIFICATION_REQUEST_LENGTH {
      return ErrOverflow, 0;
    }
    var command := [0] + ToLe(uid, 4) + ([0] + Limited(1, 512, Limited(2, 512, Limited(3, 4096, [4, 5]))));
    Copy(output, command);
    return Ok, |command|;
  }

  /** The length of the C string in a buffer, but at most one more than the limit. */
  method BoundedLength(buffer: array<Byte>, limit: nat) returns (length: nat)
    requires buffer.Length > limit
    ensures length <= limit + 1
    ensures length <= limit ==> AppParser.CString(buffer[..]) == buffer[..length]
    ensures length > limit ==> forall i :: 0 <= i <= limit ==> buffer[i] != 0
  {
    length := 0;
    var text := buffer[..];
    while length <= limit && buffer[length] != 0
      invariant length <= limit + 1 && forall i :: 0 <= i < length ==> buffer[i] != 0
      invariant AppParser.CString(text) == text[..length] + AppParser.CString(text[length..])
    {
      assert text[length..][1..] == text[length + 1..];
      assert text[..length + 1] == text[..length] + [text[length]];
      length := length + 1;
    }
  }

  method Copy(output: array<Byte>, bytes: seq<Byte>)
    requires |bytes| <= output.Length
    modifies output
    ensures output[..|bytes|] == bytes && output[|bytes|..] == old(output[|bytes|..])
  {
    for i := 0 to |bytes|
      invariant output[..i] == bytes[..i] && output[|bytes|..] == old(output[|bytes|..])
    {
      output[i] := bytes[i];
      assert bytes[..i + 1] == bytes[..i] + [bytes[i]];
    }
  }

  method BuildAppRequest(appId: array<Byte>, output: array<Byte>) returns (error: Code, length: nat)
    requires appId.Length > AppParser.APP_ID_MAX && appId != output
    modifies output
    ensures var text := AppParser.CString(appId[..]);
            error == (if text == [] then ErrArgument
                      else if |text| > 256 || output.Length < |text| + 3 then ErrLength else Ok)
    ensures error == Ok ==> length <= output.Length && output[..length] == AppRequest(AppParser.CString(appId[..]))
    ensures error != Ok ==> length == 0 && output[..] == old(output[..])
  {
    var n := BoundedLength(appId, AppParser.APP_ID_MAX);
    if n == 0 {
      return ErrArgument, 0;
    }
    if n > AppParser.APP_ID_MAX {
      LongText(appId[..], AppParser.APP_ID_MAX);
      return ErrLength, 0;
    }
    if output.Length < n + 3 {
      return ErrLength, 0;
    }
    var text := appId[..n];
    Copy(output, [1] + text + [0] + [0]);
    return Ok, n + 3;
  }

  lemma {:induction false} LongText(buffer: seq<Byte>, limit: nat)
    requires limit < |buffer| && forall i :: 0 <= i <= limit ==> buffer[i] != 0
    ensures |AppParser.CString(buffer)| > limit
  {
    if limit > 0 {
      LongText(buffer[1..], limit - 1);
    }
  }
}
