/** The parser of "Get App Attributes" responses, which name the app whose id was asked for. */
module AppParser {

  import opened AncsProtocol
  import opened Bytes

  const APP_ID_MAX: nat := 256
  const APP_NAME_MAX: nat := 256

  datatype Phase = Command | AppId | AttributeId | AttributeLength | AttributeValue | Completed | Failed

  /** What the parser writes into the notification: the name buffer and its flag. */
  datatype Name = Name(buffer: seq<Byte>, truncated: bool)

  datatype State = State(
    name: Name,
    appId: seq<Byte>,
    responseAppId: seq<Byte>,
    attributeLength: nat,
    attributeRead: nat,
    phase: Phase,
    attributeId: nat,
    lengthBytesRead: nat,
    errorCode: Code)

  ghost predicate ValidState(s: State) {
    && |s.name.buffer| == APP_NAME_MAX + 1 && |s.responseAppId| <= APP_ID_MAX
    && s.attributeLength < 0x1_0000
    && (s.phase == AttributeLength ==> s.attributeRead == 0 && s.lengthBytesRead < 2 && s.attributeLength < Weight(s.lengthBytesRead))
    && (s.phase == AttributeValue ==> s.attributeRead < s.attributeLength)
    && (s.phase == AttributeLength || s.phase == AttributeValue ==> s.attributeId == 0)
  }

  /** The C string at the start of a buffer. */
  function CString(buffer: seq<Byte>): (text: seq<Byte>)
    ensures 0 !in text && |text| <= |buffer|
  {
    if buffer == [] || buffer[0] == 0 then [] else [buffer[0]] + CString(buffer[1..])
  }

  /** A string that is followed by a terminator reads back as itself. */
  lemma {:induction false} CStringTerminated(text: seq<Byte>, rest: seq<Byte>)
    requires 0 !in text
    ensures CString(text + [0] + rest) == text
  {
    var buffer := text + [0] + rest;
    if text != [] {
      assert buffer[1..] == text[1..] + [0] + rest;
      CStringTerminated(text[1..], rest);
    }
  }

  // ---------- One byte ----------

  function Fail(s: State, code: Code): State
    requires |s.name.buffer| == APP_NAME_MAX + 1
  {
    s.(phase := Failed, errorCode := code, name := Name(s.name.buffer[0 := 0], false))
  }

  function Finish(s: State): (s': State)
    requires |s.name.buffer| == APP_NAME_MAX + 1 && |s.responseAppId| <= APP_ID_MAX && s.attributeLength < 0x1_0000
    ensures ValidState(s')
  {
    if s.attributeId != 0 then Fail(s, ErrAttribute)
    else
      var end := if s.attributeLength < APP_NAME_MAX then s.attributeLength else APP_NAME_MAX;
      s.(name := Name(s.name.buffer[end := 0], s.attributeLength > APP_NAME_MAX), phase := Completed, errorCode := Ok)
  }

  function StepAppId(s: State, byte: Byte): (s': State)
    requires ValidState(s) && s.phase == AppId
    ensures ValidState(s')
  {
    if byte == 0 then
      if s.responseAppId != s.appId then Fail(s, ErrAppIdMismatch) else s.(phase := AttributeId)
    else if |s.responseAppId| >= APP_ID_MAX then Fail(s, ErrOverflow)
    else s.(responseAppId := s.responseAppId + [byte])
  }

  lemma LengthFits(v: nat, n: nat, byte: Byte)
    requires n < 2 && v < Weight(n)
    ensures v + Weight(n) * byte < Weight(n + 1) <= 0x1_0000
  {
    assert Weight(0) == 1 && Weight(1) == 256 * Weight(0) && Weight(2) == 256 * Weight(1);
  }

  function StepLength(s: State, byte: Byte): (s': State)
    requires ValidState(s) && s.phase == AttributeLength
    ensures ValidState(s')
  {
    LengthFits(s.attributeLength, s.lengthBytesRead, byte);
    var s1 := s.(attributeLength := s.attributeLength + Weight(s.lengthBytesRead) * byte,
                 lengthBytesRead := s.lengthBytesRead + 1);
    if s1.lengthBytesRead < 2 then s1
    else if s1.attributeLength == 0 then Finish(s1)
    else s1.(phase := AttributeValue)
  }

  function StepValue(s: State, byte: Byte): (s': State)
    requires ValidState(s) && s.phase == AttributeValue
    ensures ValidState(s')
  {
    var buffer: seq<Byte> := if s.attributeRead < APP_NAME_MAX then s.name.buffer[s.attributeRead := byte] else s.name.buffer;
    var s1 := s.(name := s.name.(buffer := buffer), attributeRead := s.attributeRead + 1);
    if s1.attributeRead == s1.attributeLength then Finish(s1) else s1
  }

  function Step(s: State, byte: Byte): (s': State)
    requires ValidState(s)
    ensures ValidState(s')
  {
    match s.phase
    case Command => if byte != 1 then Fail(s, ErrCommand) else s.(phase := AppId)
    case AppId => StepAppId(s, byte)
    case AttributeId =>
      if byte != 0 then Fail(s, ErrAttribute)
      else s.(attributeId := byte, attributeLength := 0, attributeRead := 0, lengthBytesRead := 0, phase := AttributeLength)
    case AttributeLength => StepLength(s, byte)
    case AttributeValue => StepValue(s, byte)
    case Completed => Fail(s, ErrSequence)
    case Failed => s
  }

  function Run(s: State, bytes: seq<Byte>): (s': State)
    requires ValidState(s)
    ensures ValidState(s')
    decreases bytes
  {
    if bytes == [] then s else Run(Step(s, bytes[0]), bytes[1..])
  }

  function ResultOf(s: State): Result {
    match s.phase
    case Completed => Complete
    case Failed => Error
    case _ => More
  }

  /** The parser set up for a notification with the given app id text and name buffer. */
  function Started(name: Name, appId: seq<Byte>): (s: State)
    requires |name.buffer| == APP_NAME_MAX + 1
    ensures ValidState(s)
  {
    var s := State(name, appId, [], 0, 0, Command, 0, 0, Ok);
    if appId == [] then Fail(s, ErrArgument) else s.(name := Name(name.buffer[0 := 0], false))
  }

  // ---------- Feeding fragments ----------

  lemma {:induction false} RunAppend(s: State, a: seq<Byte>, b: seq<Byte>)
    requires ValidState(s)
    ensures Run(s, a + b) == Run(Run(s, a), b)
    decreases a
  {
    if a == [] {
      assert a + b == b;
    } else {
      assert (a + b)[1..] == a[1..] + b;
      RunAppend(Step(s, a[0]), a[1..], b);
    }
  }

  lemma RunOne(s: State, byte: Byte)
    requires ValidState(s)
    ensures Run(s, [byte]) == Step(s, byte)
  {
    assert [byte][1..] == [];
  }

  lemma {:induction false} FailedAbsorbs(s: State, bytes: seq<Byte>)
    requires ValidState(s) && s.phase == Failed
    ensures Run(s, bytes) == s
    decreases bytes
  {
    if bytes != [] {
      FailedAbsorbs(Step(s, bytes[0]), bytes[1..]);
    }
  }

  function FedInTurn(s: State, fragments: seq<seq<Byte>>): (r: (State, Result))
    requires ValidState(s)
    ensures ValidState(r.0)
    decreases fragments
  {
    if fragments == [] then (s, ResultOf(s))
    else FedInTurn(Run(s, fragments[0]), fragments[1..])
  }

  /** Cutting the bytes into fragments changes neither the final state nor the last result. */
  lemma {:induction false} FragmentationIndependent(s: State, fragments: seq<seq<Byte>>)
    requires ValidState(s)
    ensures var whole := Run(s, Flatten(fragments));
            FedInTurn(s, fragments) == (whole, ResultOf(whole))
    decreases fragments
  {
    if fragments != [] {
      RunAppend(s, fragments[0], Flatten(fragments[1..]));
      FragmentationIndependent(Run(s, fragments[0]), fragments[1..]);
    }
  }

  // ---------- The response language ----------

  function Prefix(appId: seq<Byte>): seq<Byte> {
    [1] + appId + [0]
  }

  /** Command, app id as a C string, the display-name attribute with its 16-bit length and value. */
  function Response(appId: seq<Byte>, name: seq<Byte>): seq<Byte> {
    Prefix(appId) + [0] + ToLe(|name|, 2) + name
  }

  function Stored(buffer: seq<Byte>, name: seq<Byte>): (b: seq<Byte>)
    requires |buffer| == APP_NAME_MAX + 1
    ensures |b| == |buffer|
  {
    var kept := if |name| < APP_NAME_MAX then |name| else APP_NAME_MAX;
    name[..kept] + [0] + buffer[kept + 1..]
  }

  lemma {:induction false} FeedAppId(s: State, text: seq<Byte>)
    requires ValidState(s) && s.phase == AppId && 0 !in text
    ensures var s' := Run(s, text);
            if |s.responseAppId| + |text| <= APP_ID_MAX then s' == s.(responseAppId := s.responseAppId + text)
            else s' == Fail(s.(responseAppId := (s.responseAppId + text)[..APP_ID_MAX]), ErrOverflow)
    decreases text
  {
    if text == [] {
      assert s.responseAppId + text == s.responseAppId;
    } else {
      var s1 := Step(s, text[0]);
      if |s.responseAppId| < APP_ID_MAX {
        FeedAppId(s1, text[1..]);
        assert s1.responseAppId + text[1..] == s.responseAppId + text;
      } else {
        FailedAbsorbs(s1, text[1..]);
        assert (s.responseAppId + text)[..APP_ID_MAX] == s.responseAppId;
      }
    }
  }

  /** After the id it asked for, the parser waits for an attribute; any other id is refused. */
  lemma {:induction false} FeedPrefix(s: State, text: seq<Byte>)
    requires ValidState(s) && s.phase == Command && s.responseAppId == [] && 0 !in text && |s.appId| <= APP_ID_MAX
    ensures var s' := Run(s, Prefix(text));
            if text == s.appId then s' == s.(responseAppId := text, phase := AttributeId)
            else s'.phase == Failed && s'.errorCode == (if |text| <= APP_ID_MAX then ErrAppIdMismatch else ErrOverflow)
  {
    RunAppend(s, [1], text);
    RunAppend(s, [1] + text, [0]);
    RunOne(s, 1);
    var s1 := Step(s, 1);
    FeedAppId(s1, text);
    var s2 := Run(s1, text);
    RunOne(s2, 0);
    assert s1.responseAppId + text == text;
  }

  lemma {:induction false} FeedName(s: State, name: seq<Byte>, k: nat)
    requires ValidState(s) && s.phase == AttributeValue && |name| == s.attributeLength && s.attributeRead == k < |name|
    requires forall i :: 0 <= i < k && i < APP_NAME_MAX ==> s.name.buffer[i] == name[i]
    ensures Run(s, name[k..]) ==
            s.(name := Name(Stored(s.name.buffer, name), |name| > APP_NAME_MAX), attributeRead := |name|, phase := Completed, errorCode := Ok)
    decreases |name| - k
  {
    var s1 := Step(s, name[k]);
    var rest := name[k..][1..];
    assert rest == name[k + 1..];
    if k + 1 == |name| {
      assert rest == [];
      assert s1.name.buffer == Stored(s.name.buffer, name);
    } else {
      FeedName(s1, name, k + 1);
      assert Stored(s1.name.buffer, name) == Stored(s.name.buffer, name);
    }
  }

  lemma {:induction false} FeedAttribute(s: State, name: seq<Byte>)
    requires ValidState(s) && s.phase == AttributeId && |name| < 0x1_0000
    ensures var s' := Run(s, [0] + ToLe(|name|, 2) + name);
            && s'.phase == Completed && s'.errorCode == Ok
            && s'.name == Name(Stored(s.name.buffer, name), |name| > APP_NAME_MAX)
  {
    var length := ToLe(|name|, 2);
    assert Weight(0) == 1 && Weight(1) == 256 && Weight(2) == 0x1_0000;
    assert FromLe(length) == (length[0] as int) + 256 * (length[1] as int) by {
      assert length[1..] == [length[1]] && length[1..][1..] == [];
    }
    var s1 := Step(s, 0);
    var s2 := Step(s1, length[0]);
    var s3 := Step(s2, length[1]);
    assert [0] + length == [0, length[0], length[1]];
    RunThree(s, 0, length[0], length[1]);
    RunAppend(s, [0] + length, name);
    if name == [] {
      assert s3.name.buffer == Stored(s.name.buffer, name);
    } else {
      FeedName(s3, name, 0);
      assert name[0..] == name;
    }
  }

  lemma RunThree(s: State, a: Byte, b: Byte, c: Byte)
    requires ValidState(s)
    ensures Run(s, [a, b, c]) == Step(Step(Step(s, a), b), c)
  {
    assert [a, b, c][1..] == [b, c] && [b, c][1..] == [c];
    RunOne(Step(Step(s, a), b), c);
  }

  /** The answer for the app that was asked about is accepted and its name stored. */
  lemma {:induction false} AnswerIsStored(name: Name, appId: seq<Byte>, display: seq<Byte>)
    requires |name.buffer| == APP_NAME_MAX + 1 && 0 < |appId| <= APP_ID_MAX && 0 !in appId && |display| < 0x1_0000
    ensures var s := Run(Started(name, appId), Response(appId, display));
            && ResultOf(s) == Complete
            && s.name == Name(Stored(name.buffer[0 := 0], display), |display| > 256)
  {
    var s := Started(name, appId);
    FeedPrefix(s, appId);
    var tail := [0] + ToLe(|display|, 2) + display;
    assert Response(appId, display) == Prefix(appId) + tail;
    RunAppend(s, Prefix(appId), tail);
    FeedAttribute(Run(s, Prefix(appId)), display);
  }

  // ---------- Only such answers are accepted ----------

  ghost predicate Tracks(s: State, appId: seq<Byte>, current: seq<Byte>, consumed: seq<Byte>) {
    && ValidState(s) && s.appId == appId && 0 !in s.responseAppId
    && match s.phase
       case Command => consumed == [] && s.responseAppId == []
       case AppId => consumed == [1] + s.responseAppId
       case AttributeId => consumed == Prefix(appId)
       case AttributeLength =>
         |current| == s.lengthBytesRead && s.attributeLength == FromLe(current) && consumed == Prefix(appId) + [0] + current
       case AttributeValue =>
         |current| == s.attributeRead && consumed == Prefix(appId) + [0] + ToLe(s.attributeLength, 2) + current
       case Completed => |current| == s.attributeLength && consumed == Response(appId, current)
       case Failed => true
  }

  lemma {:induction false} TracksStep(s: State, appId: seq<Byte>, current: seq<Byte>, consumed: seq<Byte>, byte: Byte)
    returns (current': seq<Byte>)
    requires Tracks(s, appId, current, consumed) && s.phase != Failed && Step(s, byte).phase != Failed
    ensures Tracks(Step(s, byte), appId, current', consumed + [byte])
  {
    var bytes := current + [byte];
    current' := [];
    match s.phase
    case Command =>
    case AppId =>
      assert consumed + [byte] == [1] + (s.responseAppId + [byte]);
    case AttributeId =>
      assert consumed + [byte] == Prefix(appId) + [0] + [];
    case AttributeLength =>
      FromLeAppend(current, byte);
      LengthFits(s.attributeLength, s.lengthBytesRead, byte);
      assert consumed + [byte] == Prefix(appId) + [0] + bytes;
      if |bytes| == 2 {
        ToLeFromLe(bytes);
        assert consumed + [byte] == Prefix(appId) + [0] + ToLe(FromLe(bytes), 2) + [];
      } else {
        current' := bytes;
      }
    case AttributeValue =>
      current' := bytes;
      assert consumed + [byte] == Prefix(appId) + [0] + ToLe(s.attributeLength, 2) + bytes;
  }

  lemma {:induction false} TracksRun(s: State, bytes: seq<Byte>) returns (current: seq<Byte>)
    requires ValidState(s) && s.phase == Command && s.responseAppId == [] && Run(s, bytes).phase != Failed
    ensures Tracks(Run(s, bytes), s.appId, current, bytes)
    decreases |bytes|
  {
    if bytes == [] {
      current := [];
    } else {
      var before, last := bytes[..|bytes| - 1], bytes[|bytes| - 1];
      assert bytes == before + [last];
      RunAppend(s, before, [last]);
      RunOne(Run(s, before), last);
      if Run(s, before).phase == Failed {
        assert false;
      }
      current := TracksRun(s, before);
      current := TracksStep(Run(s, before), s.appId, current, before, last);
    }
  }

  /** Completion is reported exactly on the display-name answers for the app that was asked about. */
  lemma {:induction false} CompleteIffAnswer(name: Name, appId: seq<Byte>, bytes: seq<Byte>)
    requires |name.buffer| == APP_NAME_MAX + 1 && |appId| <= APP_ID_MAX && 0 !in appId
    ensures ResultOf(Run(Started(name, appId), bytes)) == Complete
            <==> (appId != [] && exists display: seq<Byte> :: |display| < 0x1_0000 && bytes == Response(appId, display))
  {
    var s := Started(name, appId);
    if appId == [] {
      FailedAbsorbs(s, bytes);
    } else {
      if ResultOf(Run(s, bytes)) == Complete {
        var display := TracksRun(s, bytes);
        assert bytes == Response(appId, display);
      }
      forall display: seq<Byte> | |display| < 0x1_0000 && bytes == Response(appId, display)
        ensures ResultOf(Run(s, bytes)) == Complete
      {
        AnswerIsStored(name, appId, display);
      }
    }
  }

  /** An answer about another app is refused, with its own error when the id is too long. */
  lemma {:induction false} WrongAppIsReported(name: Name, appId: seq<Byte>, other: seq<Byte>, rest: seq<Byte>)
    requires |name.buffer| == APP_NAME_MAX + 1 && 0 < |appId| <= APP_ID_MAX && 0 !in appId
    requires 0 !in other && other != appId
    ensures var s := Run(Started(name, appId), Prefix(other) + rest);
            && s.phase == Failed && s.errorCode == (if |other| <= APP_ID_MAX then ErrAppIdMismatch else ErrOverflow)
  {
    var s := Started(name, appId);
    FeedPrefix(s, other);
    RunAppend(s, Prefix(other), rest);
    FailedAbsorbs(Run(s, Prefix(other)), rest);
  }

  /** Bytes after a complete answer erase the name that was stored. */
  lemma {:induction false} TrailingByteIsReported(name: Name, appId: seq<Byte>, display: seq<Byte>, byte: Byte, rest: seq<Byte>)
    requires |name.buffer| == APP_NAME_MAX + 1 && 0 < |appId| <= APP_ID_MAX && 0 !in appId && |display| < 0x1_0000
    ensures var s := Run(Started(name, appId), Response(appId, display) + [byte] + rest);
            && s.phase == Failed && s.errorCode == ErrSequence
            && CString(s.name.buffer) == [] && !s.name.truncated
  {
    var s := Started(name, appId);
    AnswerIsStored(name, appId, display);
    var done := Run(s, Response(appId, display));
    RunAppend(s, Response(appId, display), [byte]);
    RunOne(done, byte);
    RunAppend(s, Response(appId, display) + [byte], rest);
    FailedAbsorbs(Step(done, byte), rest);
  }

  // ---------- The parser object ----------

  /** The part of the notification record this parser reads and writes. */
  class Notification {
    const appId: array<Byte>
    const appName: array<Byte>
    var appNameTruncated: bool

    ghost predicate Valid() {
      appId.Length == APP_ID_MAX + 1 && appName.Length == APP_NAME_MAX + 1 && appId != appName
    }

    constructor (appId: array<Byte>, appName: array<Byte>)
      requires appId.Length == APP_ID_MAX + 1 && appName.Length == APP_NAME_MAX + 1 && appId != appName
      ensures Valid() && this.appId == appId && this.appName == appName && !appNameTruncated
    {
      this.appId, this.appName := appId, appName;
      appNameTruncated := false;
    }
  }

  class Parser {
    const notification: Notification
    const responseAppId: array<Byte>
    var responseAppIdRead: nat
    var attributeLength: nat
    var attributeRead: nat
    var phase: Phase
    var attributeId: nat
    var lengthBytesRead: nat
    var errorCode: Code

    ghost predicate Shaped()
      reads this`responseAppIdRead
    {
      && notification.Valid() && responseAppId.Length == APP_ID_MAX + 1
      && responseAppId != notification.appId && responseAppId != notification.appName
      && responseAppIdRead <= APP_ID_MAX
    }

    ghost function View(): State
      requires Shaped()
      reads this, notification, notification.appId, notification.appName, responseAppId
    {
      State(Name(notification.appName[..], notification.appNameTruncated), CString(notification.appId[..]),
            responseAppId[..responseAppIdRead], attributeLength, attributeRead, phase, attributeId, lengthBytesRead, errorCode)
    }

    ghost predicate Valid()
      reads this, notification, notification.appId, notification.appName, responseAppId
    {
      Shaped() && ValidState(View())
    }

    constructor (notification: Notification)
      requires notification.Valid()
      modifies notification, notification.appName
      ensures Valid() && this.notification == notification && fresh(responseAppId)
      ensures View() == Started(old(Name(notification.appName[..], notification.appNameTruncated)),
                                CString(old(notification.appId[..])))
    {
      this.notification := notification;
      responseAppId := new Byte[APP_ID_MAX + 1](_ => 0);
      responseAppIdRead, attributeLength, attributeRead := 0, 0, 0;
      phase, attributeId, lengthBytesRead, errorCode := Command, 0, 0, Ok;
      new;
      if notification.appId[0] == 0 {
        var _ := FailWith(ErrArgument);
      } else {
        notification.appName[0] := 0;
        notification.appNameTruncated := false;
      }
    }

    method FailWith(code: Code) returns (result: Result)
      requires Shaped()
      modifies this`phase, this`errorCode, notification, notification.appName
      ensures Shaped() && View() == Fail(old(View()), code) && result == Error
    {
      phase := Failed;
      errorCode := code;
      notification.appName[0] := 0;
      notification.appNameTruncated := false;
      return Error;
    }

    method FinishAttribute() returns (result: Result)
      requires Shaped() && attributeLength < 0x1_0000
      modifies this`phase, this`errorCode, notification, notification.appName
      ensures Valid() && View() == Finish(old(View())) && result == ResultOf(View())
    {
      if attributeId != 0 {
        result := FailWith(ErrAttribute);
        return;
      }
      var end := if attributeLength < APP_NAME_MAX then attributeLength else APP_NAME_MAX;
      notification.appName[end] := 0;
      notification.appNameTruncated := attributeLength > APP_NAME_MAX;
      phase := Completed;
      errorCode := Ok;
      return Complete;
    }

    method AcceptAppId(byte: Byte) returns (result: Result)
      requires Valid() && phase == AppId
      modifies this, notification, notification.appName, responseAppId
      ensures Valid() && View() == StepAppId(old(View()), byte) && result == ResultOf(View())
    {
      if byte == 0 {
        responseAppId[responseAppIdRead] := 0;
        var same := SameText();
        if !same {
          result := FailWith(ErrAppIdMismatch);
          return;
        }
        phase := AttributeId;
        return More;
      }
      if responseAppIdRead >= APP_ID_MAX {
        result := FailWith(ErrOverflow);
        return;
      }
      responseAppId[responseAppIdRead] := byte;
      responseAppIdRead := responseAppIdRead + 1;
      assert responseAppId[..responseAppIdRead] == old(responseAppId[..responseAppIdRead]) + [byte];
      return More;
    }

    /** Compares the collected id with the C string of the notification. */
    method SameText() returns (same: bool)
      requires Shaped()
      ensures same <==> responseAppId[..responseAppIdRead] == CString(notification.appId[..])
    {
      var text := notification.appId[..];
      var length := 0;
      while length < notification.appId.Length && notification.appId[length] != 0
        invariant length <= |text| && CString(text) == text[..length] + CString(text[length..])
      {
        assert text[length..][1..] == text[length + 1..];
        assert text[..length + 1] == text[..length] + [text[length]];
        length := length + 1;
      }
      return responseAppId[..responseAppIdRead] == notification.appId[..length];
    }

    method AcceptLength(byte: Byte) returns (result: Result)
      requires Valid() && phase == AttributeLength
      modifies this, notification, notification.appName
      ensures Valid() && View() == StepLength(old(View()), byte) && result == ResultOf(View())
    {
      LengthFits(attributeLength, lengthBytesRead, byte);
      attributeLength := attributeLength + Weight(lengthBytesRead) * byte;
      lengthBytesRead := lengthBytesRead + 1;
      result := More;
      if lengthBytesRead == 2 {
        if attributeLength == 0 {
          result := FinishAttribute();
        } else {
          phase := AttributeValue;
        }
      }
    }

    method AcceptValue(byte: Byte) returns (result: Result)
      requires Valid() && phase == AttributeValue
      modifies this, notification, notification.appName
      ensures Valid() && View() == StepValue(old(View()), byte) && result == ResultOf(View())
    {
      if attributeRead < APP_NAME_MAX {
        notification.appName[attributeRead] := byte;
      }
      attributeRead := attributeRead + 1;
      result := More;
      if attributeRead == attributeLength {
        result := FinishAttribute();
      }
    }

    method Accept(byte: Byte) returns (result: Result)
      requires Valid() && phase != Completed && phase != Failed
      modifies this, notification, notification.appName, responseAppId
      ensures Valid() && View() == Step(old(View()), byte) && result == ResultOf(View())
    {
      hide StepAppId, StepLength, StepValue;
      match phase
      case Command =>
        if byte != 1 {
          result := FailWith(ErrCommand);
        } else {
          phase, result := AppId, More;
        }
      case AppId =>
        result := AcceptAppId(byte);
      case AttributeId =>
        if byte != 0 {
          result := FailWith(ErrAttribute);
        } else {
          attributeId, attributeLength, attributeRead, lengthBytesRead := byte, 0, 0, 0;
          phase, result := AttributeLength, More;
        }
      case AttributeLength =>
        result := AcceptLength(byte);
      case AttributeValue =>
        result := AcceptValue(byte);
    }

    method Feed(bytes: seq<Byte>) returns (result: Result)
      requires Valid()
      modifies this, notification, notification.appName, responseAppId
      ensures Valid() && View() == Run(old(View()), bytes) && result == ResultOf(View())
    {
      hide StepAppId, StepLength, StepValue;
      ghost var start := View();
      if phase == Failed {
        FailedAbsorbs(start, bytes);
        return Error;
      }
      if phase == Completed {
        if |bytes| == 0 {
          return Complete;
        }
        result := FailWith(ErrSequence);
        FailedAbsorbs(View(), bytes[1..]);
        return;
      }
      for index := 0 to |bytes|
        invariant Valid() && phase != Completed && phase != Failed
        invariant Run(View(), bytes[index..]) == Run(start, bytes)
      {
        ghost var rest := bytes[index..];
        assert rest[0] == bytes[index] && rest[1..] == bytes[index + 1..];
        result := Accept(bytes[index]);
        if result != More {
          if result == Complete && index + 1 < |bytes| {
            result := FailWith(ErrSequence);
            FailedAbsorbs(View(), rest[2..]);
            assert rest[1..][1..] == rest[2..];
            return;
          }
          if result == Error {
            FailedAbsorbs(View(), rest[1..]);
          }
          return;
        }
      }
      return More;
    }
  }
}
