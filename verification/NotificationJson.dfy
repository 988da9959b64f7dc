/**
 * The JSON line printed for a notification, and why its buffer is always large
 * enough.
 *
 * The line is a fixed sequence of names and separators around the fields of the
 * notification. A text takes at most six times its length and two quotes;
 * everything else is of bounded length, so 2048 bytes and six times the length
 * of the texts suffice.
 */
module NotificationJson {
  import opened Bytes
  import opened Json
  import opened JsonWriter

  /** Text of the program itself, which is ASCII without a zero character. */
  function Ascii(s: string): (r: Text)
    ensures |r| == |s|
  {
    seq(|s|, i requires 0 <= i < |s| => if 0 < s[i] as int < 128 then s[i] as int else 63)
  }

  /** The identifier of the target chip is part of the build. */
  const TARGET_MAX: nat := 32

  datatype Notification = Notification(
    sessionId: nat,
    uid: nat,
    eventId: Byte,
    flags: Byte,
    categoryId: Byte,
    categoryCount: Byte,
    appId: Text,
    appName: Text,
    title: Text,
    subtitle: Text,
    message: Text,
    messageSize: Text,
    date: Text,
    complete: bool,
    appIdTruncated: bool,
    appNameTruncated: bool,
    titleTruncated: bool,
    subtitleTruncated: bool,
    messageTruncated: bool,
    errorCode: int,
    receivedAt: int)

  /** The widths of the source's integers. */
  predicate InRange(n: Notification) {
    && n.sessionId < 0x1_0000_0000 && n.uid < 0x1_0000_0000
    && -0x8000_0000 <= n.errorCode < 0x8000_0000
    && -0x8000_0000_0000_0000 <= n.receivedAt < 0x8000_0000_0000_0000
  }

  function Bool(b: bool): (r: seq<Byte>)
    ensures |r| <= 5
  {
    Printed(Boolean(b))
  }

  function Flag(flags: Byte, weight: nat): (r: seq<Byte>)
    requires weight > 0
    ensures |r| <= 5
  {
    Bool((flags as int / weight) % 2 == 1)
  }

  function EventName(id: Byte): (s: Text)
    ensures |s| <= 8
  {
    if id == 0 then Ascii("added") else if id == 1 then Ascii("modified") else if id == 2 then Ascii("removed") else Ascii("unknown")
  }

  function CategoryName(id: Byte): (s: Text)
    ensures |s| <= 20
  {
    match id
    case 0 => Ascii("other")
    case 1 => Ascii("incoming_call")
    case 2 => Ascii("missed_call")
    case 3 => Ascii("voicemail")
    case 4 => Ascii("social")
    case 5 => Ascii("schedule")
    case 6 => Ascii("email")
    case 7 => Ascii("news")
    case 8 => Ascii("health_and_fitness")
    case 9 => Ascii("business_and_finance")
    case 10 => Ascii("location")
    case 11 => Ascii("entertainment")
    case _ => Ascii("reserved")
  }

  function ErrorName(code: int): (s: Text)
    ensures |s| <= 20
  {
    match code
    case -1 => Ascii("invalid_argument")
    case -2 => Ascii("invalid_length")
    case -3 => Ascii("invalid_event")
    case -4 => Ascii("invalid_command")
    case -5 => Ascii("uid_mismatch")
    case -6 => Ascii("invalid_attribute")
    case -7 => Ascii("overflow")
    case -8 => Ascii("invalid_sequence")
    case -9 => Ascii("canceled")
    case -10 => Ascii("timeout")
    case 0xA0 => Ascii("unknown_command")
    case 0xA1 => Ascii("invalid_ancs_command")
    case 0xA2 => Ascii("invalid_parameter")
    case 0xA3 => Ascii("action_failed")
    case _ => Ascii("unknown")
  }

  // ---------- The document, section by section ----------

  /** The key of a member, after a comma. */
  function Key(name: string): (r: seq<Byte>)
    ensures |r| == |name| + 4
  {
    Ascii(",\"" + name + "\":")
  }

  /** The key of the first member of an object, after its brace. */
  function FirstKey(name: string): (r: seq<Byte>)
    ensures |r| == |name| + 4
  {
    Ascii("{\"" + name + "\":")
  }

  /** The target is part of the program and is not escaped. */
  function Opening(target: Text, device: Text): seq<Byte> {
    FirstKey("schema_version") + Decimal(1) + Key("target") + ([QUOTE] + target + [QUOTE]) + Key("device_name") + Quoted(device)
  }

  function Identity(n: Notification): seq<Byte>
    requires InRange(n)
  {
    Key("session_id") + Decimal(n.sessionId) + Key("event") + Quoted(EventName(n.eventId))
    + Key("event_id") + Decimal(n.eventId) + Key("uid") + Decimal(n.uid)
  }

  function Flags(n: Notification): seq<Byte> {
    Key("event_flags") + Decimal(n.flags) + Key("silent") + Flag(n.flags, 1)
    + Key("important") + Flag(n.flags, 2) + Key("pre_existing") + Flag(n.flags, 4)
    + Key("positive_action_available") + Flag(n.flags, 8)
    + Key("negative_action_available") + Flag(n.flags, 16)
  }

  function Category(n: Notification): seq<Byte> {
    Key("category_id") + Decimal(n.categoryId) + Key("category") + Quoted(CategoryName(n.categoryId))
    + Key("category_count") + Decimal(n.categoryCount)
  }

  function Field(key: string, text: Text): (r: seq<Byte>)
    ensures |r| <= |key| + 6 * |text| + 6
  {
    Key(key) + Quoted(text)
  }

  function Texts(n: Notification): seq<Byte> {
    Field("app_id", n.appId) + Field("app_name", n.appName) + Field("title", n.title)
    + Field("subtitle", n.subtitle) + Field("message", n.message)
    + Field("message_size", n.messageSize) + Field("date", n.date)
  }

  function Truncations(n: Notification): seq<Byte> {
    FirstKey("app_id") + Bool(n.appIdTruncated) + Key("app_name") + Bool(n.appNameTruncated)
    + Key("title") + Bool(n.titleTruncated) + Key("subtitle") + Bool(n.subtitleTruncated)
    + Key("message") + Bool(n.messageTruncated) + [CLOSE]
  }

  function Completeness(n: Notification): seq<Byte> {
    Key("complete") + Bool(n.complete) + Key("truncated") + Truncations(n) + Key("error")
  }

  function ErrorPart(n: Notification): seq<Byte> {
    if n.complete && n.errorCode == 0 then NULL
    else FirstKey("code") + SignedDecimal(n.errorCode) + Key("name") + Quoted(ErrorName(n.errorCode)) + [CLOSE]
  }

  function Closing(n: Notification): seq<Byte> {
    Key("received_at_ms") + SignedDecimal(n.receivedAt) + [CLOSE]
  }

  /** The whole line. */
  function Document(n: Notification, target: Text, device: Text): seq<Byte>
    requires InRange(n)
  {
    Opening(target, device) + Identity(n) + Flags(n) + Category(n) + Texts(n) + Completeness(n) + ErrorPart(n) + Closing(n)
  }

  // ---------- How long it can get ----------

  function Power(k: nat): (p: nat)
    ensures p >= 1
  {
    if k == 0 then 1 else 10 * Power(k - 1)
  }

  lemma {:induction false} DecimalLength(n: nat, k: nat)
    requires k > 0 && n < Power(k)
    ensures |Decimal(n)| <= k
  {
    if n >= 10 {
      assert Power(k) == 10 * Power(k - 1);
      DecimalLength(n / 10, k - 1);
    }
  }

  lemma Powers()
    ensures Power(3) == 1000 && Power(10) == 10000000000 && Power(19) == 10000000000000000000
  {
    assert Power(4) == 10000 && Power(8) == 100000000 && Power(12) == 1000000000000 && Power(16) == 10000000000000000;
  }

  lemma ByteLength(b: Byte)
    ensures |Decimal(b)| <= 3
  {
    Powers();
    DecimalLength(b, 3);
  }

  lemma WordLength(n: nat)
    requires n < 0x1_0000_0000
    ensures |Decimal(n)| <= 10
  {
    Powers();
    DecimalLength(n, 10);
  }

  lemma SignedLengths(n: Notification)
    requires InRange(n)
    ensures |SignedDecimal(n.errorCode)| <= 11 && |SignedDecimal(n.receivedAt)| <= 20
  {
    Powers();
    DecimalLength(if n.errorCode < 0 then -n.errorCode else n.errorCode, 10);
    DecimalLength(if n.receivedAt < 0 then -n.receivedAt else n.receivedAt, 19);
  }

  /** The lengths of the texts of a notification and the device name. */
  function TextLength(n: Notification, device: Text): nat {
    |n.appId| + |n.appName| + |n.title| + |n.subtitle| + |n.message| + |n.messageSize| + |n.date| + |device|
  }

  lemma HeadLength(n: Notification, target: Text, device: Text)
    requires InRange(n) && |target| <= TARGET_MAX
    ensures |Opening(target, device)| <= 100 + 6 * |device| && |Identity(n)| <= 150
  {
    WordLength(1);
    WordLength(n.sessionId);
    WordLength(n.uid);
    ByteLength(n.eventId);
    hide Decimal, Quoted, EventName, Key, FirstKey, Ascii;
  }

  lemma MiddleLength(n: Notification)
    ensures |Flags(n)| <= 250 && |Category(n)| <= 250
  {
    ByteLength(n.flags);
    ByteLength(n.categoryId);
    ByteLength(n.categoryCount);
    hide Decimal, Quoted, CategoryName, Flag, Ascii, Key;
  }

  lemma TailLength(n: Notification)
    requires InRange(n)
    ensures |Completeness(n)| <= 200 && |ErrorPart(n)| <= 200 && |Closing(n)| <= 100
  {
    hide Completeness, SignedDecimal, Quoted, ErrorName, Key, FirstKey;
    CompletenessLength(n);
    SignedLengths(n);
  }

  lemma CompletenessLength(n: Notification)
    ensures |Completeness(n)| <= 200
  {
    hide Bool, Ascii, Key, FirstKey;
  }

  lemma TextsLength(n: Notification, device: Text)
    ensures |Texts(n)| + 6 * |device| <= 200 + 6 * TextLength(n, device)
  {
    hide Field;
  }

  /** The buffer that is allocated for a notification always holds its line and the terminating zero. */
  lemma DocumentFits(n: Notification, target: Text, device: Text)
    requires InRange(n) && |target| <= TARGET_MAX
    ensures |Document(n, target, device)| < 2048 + 6 * TextLength(n, device)
  {
    hide Opening, Identity, Flags, Category, Texts, Completeness, ErrorPart, Closing, TextLength;
    HeadLength(n, target, device);
    MiddleLength(n);
    TextsLength(n, device);
    TailLength(n);
  }

  // ---------- Writing it ----------

  lemma Assoc(a: seq<Byte>, b: seq<Byte>, c: seq<Byte>)
    ensures (a + b) + c == a + (b + c)
  {
  }

  method WriteField(w: Writer, key: string, text: Text)
    requires w.Valid()
    modifies w, w.buffer
    ensures w.Valid() && w.written == old(w.written) + Field(key, text)
  {
    w.Append(Key(key));
    w.WriteString(text);
    Assoc(old(w.written), Key(key), Quoted(text));
  }

  method WriteTexts(w: Writer, n: Notification)
    requires w.Valid()
    modifies w, w.buffer
    ensures w.Valid() && w.written == old(w.written) + Texts(n)
  {
    hide Field;
    ghost var start := w.written;
    WriteField(w, "app_id", n.appId);
    ghost var done := Field("app_id", n.appId);
    WriteField(w, "app_name", n.appName);
    Assoc(start, done, Field("app_name", n.appName));
    done := done + Field("app_name", n.appName);
    WriteField(w, "title", n.title);
    Assoc(start, done, Field("title", n.title));
    done := done + Field("title", n.title);
    WriteField(w, "subtitle", n.subtitle);
    Assoc(start, done, Field("subtitle", n.subtitle));
    done := done + Field("subtitle", n.subtitle);
    WriteField(w, "message", n.message);
    Assoc(start, done, Field("message", n.message));
    done := done + Field("message", n.message);
    WriteField(w, "message_size", n.messageSize);
    Assoc(start, done, Field("message_size", n.messageSize));
    done := done + Field("message_size", n.messageSize);
    WriteField(w, "date", n.date);
    Assoc(start, done, Field("date", n.date));
  }

  /** The opening, and the numbers around the names of the event and the category. */
  method WriteHead(w: Writer, n: Notification, target: Text, device: Text)
    requires w.Valid() && InRange(n)
    modifies w, w.buffer
    ensures w.Valid() && w.written == old(w.written) + (Opening(target, device) + Identity(n) + Flags(n) + Category(n))
  {
    hide Decimal, Flag, Ascii, Key, FirstKey, Quoted, EventName, CategoryName;
    ghost var start := w.written;
    var open := FirstKey("schema_version") + Decimal(1) + Key("target") + ([QUOTE] + target + [QUOTE]) + Key("device_name");
    w.Append(open);
    w.WriteString(device);
    Assoc(start, open, Quoted(device));
    ghost var done := Opening(target, device);
    var session := Key("session_id") + Decimal(n.sessionId) + Key("event");
    w.Append(session);
    w.WriteString(EventName(n.eventId));
    Assoc(start, done, session);
    Assoc(start, done + session, Quoted(EventName(n.eventId)));
    Assoc(done, session, Quoted(EventName(n.eventId)));
    ghost var named := session + Quoted(EventName(n.eventId));
    ghost var numbers := Key("event_id") + Decimal(n.eventId) + Key("uid") + Decimal(n.uid);
    ghost var toCategory := Key("category_id") + Decimal(n.categoryId) + Key("category");
    w.Append(Key("event_id") + Decimal(n.eventId) + Key("uid") + Decimal(n.uid) + Flags(n)
             + (Key("category_id") + Decimal(n.categoryId) + Key("category")));
    w.WriteString(CategoryName(n.categoryId));
    w.Append(Key("category_count") + Decimal(n.categoryCount));
    assert Identity(n) == named + numbers;
    assert Category(n) == toCategory + Quoted(CategoryName(n.categoryId)) + (Key("category_count") + Decimal(n.categoryCount));
    Nest(start, done, named, numbers, Flags(n), toCategory, Quoted(CategoryName(n.categoryId)),
         Key("category_count") + Decimal(n.categoryCount));
  }

  /** The head is written in other pieces than it is described in. */
  lemma Nest(start: seq<Byte>, a: seq<Byte>, b: seq<Byte>, c: seq<Byte>, d: seq<Byte>, e: seq<Byte>, f: seq<Byte>, g: seq<Byte>)
    ensures start + (a + b) + (c + d + e) + f + g == start + (a + (b + c) + d + (e + f + g))
  {
  }

  method WriteTail(w: Writer, n: Notification)
    requires w.Valid() && InRange(n)
    modifies w, w.buffer
    ensures w.Valid() && w.written == old(w.written) + (Completeness(n) + ErrorPart(n) + Closing(n))
  {
    hide Completeness, Closing, SignedDecimal, ErrorName;
    ghost var start := w.written;
    w.Append(Completeness(n));
    if n.complete && n.errorCode == 0 {
      w.Append(NULL);
    } else {
      var code := FirstKey("code") + SignedDecimal(n.errorCode) + Key("name");
      w.Append(code);
      w.WriteString(ErrorName(n.errorCode));
      w.Append([CLOSE]);
      Assoc(start + Completeness(n), code, Quoted(ErrorName(n.errorCode)));
      Assoc(start + Completeness(n), code + Quoted(ErrorName(n.errorCode)), [CLOSE]);
    }
    hide ErrorPart;
    w.Append(Closing(n));
    Assoc(start, Completeness(n), ErrorPart(n));
    Assoc(start, Completeness(n) + ErrorPart(n), Closing(n));
  }

  /** Writes the line into a buffer of the given capacity; it succeeds exactly if the line and a zero fit. */
  method FormatJson(n: Notification, target: Text, device: Text, capacity: nat) returns (ok: bool, output: seq<Byte>)
    requires InRange(n) && capacity > 0
    ensures ok <==> |Document(n, target, device)| < capacity
    ensures ok ==> output == Document(n, target, device)
  {
    hide Opening, Identity, Flags, Category, Texts, Completeness, ErrorPart, Closing;
    var w := new Writer(capacity);
    WriteHead(w, n, target, device);
    ghost var head := Opening(target, device) + Identity(n) + Flags(n) + Category(n);
    assert w.written == head;
    WriteTexts(w, n);
    WriteTail(w, n);
    assert w.written == Document(n, target, device);
    output := w.buffer[..w.length];
    return !w.failed, output;
  }

  /** The sink sizes its buffer from the texts, and the line always fits. */
  method Publish(n: Notification, target: Text, device: Text) returns (ok: bool, output: seq<Byte>)
    requires InRange(n) && |target| <= TARGET_MAX
    ensures ok && output == Document(n, target, device)
  {
    hide Document;
    DocumentFits(n, target, device);
    ok, output := FormatJson(n, target, device, 2048 + 6 * TextLength(n, device));
  }
}
