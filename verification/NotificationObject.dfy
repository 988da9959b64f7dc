/**
 * The line printed for a notification is a JSON object that a reader gets back.
 *
 * The line is put together from names, separators and fields, without a notion
 * of an object. Here it is the printed form of a value: part by part, the text
 * that was written is the text of a list of members. The reader of JSON values
 * then gives back that value, with each text cleaned, so nothing is lost exactly
 * if every text is valid UTF-8.
 */
module NotificationObject {
  import opened Bytes
  import opened Json
  import opened JsonWriter
  import opened NotificationJson
  import opened Utf8
  import opened Wrappers

  function Named(name: string, value: Value): Member {
    Member(Ascii(name), value)
  }

  /** Text that is printed as it is. */
  predicate Plain(s: seq<Byte>) {
    forall b <- s :: 0x20 <= b < 0x80 && b != QUOTE && b != BACKSLASH
  }

  /** Names of members: lower-case letters and underscores. */
  predicate PlainName(name: string) {
    forall c <- name :: 'a' <= c <= 'z' || c == '_'
  }

  lemma {:induction false} PlainIsPrinted(s: seq<Byte>)
    requires Plain(s)
    ensures Escaped(s) == s
    decreases |s|
  {
    if s != [] {
      assert s[0] in s;
      assert ShortEscape(s[0]) == 0 && Sequence(s) == 1 && Consumed(s) == 1 && Piece(s) == [s[0]];
      assert forall b <- s[1..] :: b in s;
      PlainIsPrinted(s[1..]);
      assert s == [s[0]] + s[1..];
    }
  }

  lemma NameIsPlain(name: string)
    requires PlainName(name)
    ensures Quoted(Ascii(name)) == [QUOTE] + Ascii(name) + [QUOTE] && 0 !in Ascii(name)
  {
    forall b | b in Ascii(name)
      ensures 0x20 <= b < 0x80 && b != QUOTE && b != BACKSLASH
    {
      var i :| 0 <= i < |name| && Ascii(name)[i] == b;
      assert name[i] in name;
    }
    PlainIsPrinted(Ascii(name));
  }

  lemma KeysAreQuoted(name: string)
    requires PlainName(name)
    ensures Key(name) == [COMMA] + Quoted(Ascii(name)) + [COLON]
    ensures FirstKey(name) == [OPEN] + Quoted(Ascii(name)) + [COLON]
  {
    hide Quoted;
    NameIsPlain(name);
    assert Key(name) == [COMMA] + [QUOTE] + Ascii(name) + [QUOTE] + [COLON];
    assert FirstKey(name) == [OPEN] + [QUOTE] + Ascii(name) + [QUOTE] + [COLON];
  }

  /** Text of a list of members after some head, and one more member behind it. */
  lemma OneMore(text: seq<Byte>, head: seq<Byte>, members: seq<Member>, name: string, value: Value)
    requires text == head + Tail(members) && PlainName(name)
    ensures text + Key(name) + Printed(value) == head + Tail(members + [Named(name, value)])
  {
    hide Key, Quoted, Printed, Ascii;
    KeysAreQuoted(name);
    var m := Named(name, value);
    assert [m][1..] == [];
    assert Tail([m]) == [COMMA] + Pair(m) + [];
    assert Key(name) + Printed(value) == Tail([m]);
    hide Tail, Named, Pair;
    TailAppend(members, [m]);
    assert text + Key(name) + Printed(value) == text + (Key(name) + Printed(value));
  }

  lemma NothingBefore(s: seq<Byte>)
    ensures [] + s == s
  {
  }

  lemma NoMembers()
    ensures Tail([]) == []
  {
  }

  /** The first member of a list behind nothing. */
  lemma Leading(name: string, value: Value)
    requires PlainName(name)
    ensures Key(name) + Printed(value) == [] + Tail([Named(name, value)])
  {
    hide Key, Printed, Named, Tail, PlainName;
    NoMembers();
    NothingBefore([]);
    OneMore([], [], [], name, value);
    NothingBefore(Key(name));
    assert [] + [Named(name, value)] == [Named(name, value)];
  }

  /** The first member of an object. */
  lemma Inside(name: string, value: Value)
    requires PlainName(name)
    ensures FirstKey(name) + Printed(value) == [OPEN] + Pair(Named(name, value)) + Tail([])
  {
    hide FirstKey, Quoted, Printed, Ascii;
    KeysAreQuoted(name);
  }

  lemma NumberText(n: nat)
    ensures Printed(Number(n)) == Decimal(n)
  {
  }

  lemma StringText(text: seq<Byte>)
    ensures Printed(String(text)) == Quoted(text)
  {
  }

  /** The names of the events and the categories of ANCS, in the order of their ids. */
  const EVENTS: seq<string> := ["added", "modified", "removed"]

  const CATEGORIES: seq<string> := [
    "other", "incoming_call", "missed_call", "voicemail", "social", "schedule", "email", "news",
    "health_and_fitness", "business_and_finance", "location", "entertainment"]

  /** The names of the errors of the protocol layer from -1 down, and of those of ANCS from 0xA0 up. */
  const PROTOCOL_ERRORS: seq<string> := [
    "invalid_argument", "invalid_length", "invalid_event", "invalid_command", "uid_mismatch", "invalid_attribute",
    "overflow", "invalid_sequence", "canceled", "timeout"]

  const ANCS_ERRORS: seq<string> := ["unknown_command", "invalid_ancs_command", "invalid_parameter", "action_failed"]

  function NameIn(names: seq<string>, i: int, other: string): string {
    if 0 <= i < |names| then names[i] else other
  }

  function EventText(id: Byte): Text {
    Ascii(NameIn(EVENTS, id, "unknown"))
  }

  function CategoryText(id: Byte): Text {
    Ascii(NameIn(CATEGORIES, id, "reserved"))
  }

  function ErrorText(code: int): Text {
    Ascii(if code < 0 then NameIn(PROTOCOL_ERRORS, -1 - code, "unknown") else NameIn(ANCS_ERRORS, code - 0xA0, "unknown"))
  }

  lemma EventNamesAgree(id: Byte)
    ensures EventName(id) == EventText(id)
  {
    hide Ascii;
  }

  lemma CategoryNamesAgree(id: Byte)
    ensures CategoryName(id) == CategoryText(id)
  {
    hide Ascii;
  }

  lemma ErrorNamesAgree(code: int)
    ensures ErrorName(code) == ErrorText(code)
  {
    hide Ascii;
  }

  function Opened(target: Text, device: Text): seq<Member> {
    [Named("target", String(target))] + [Named("device_name", String(device))]
  }

  function Identified(n: Notification): seq<Member> {
    [Named("session_id", Number(n.sessionId))] + [Named("event", String(EventText(n.eventId)))]
    + [Named("event_id", Number(n.eventId))] + [Named("uid", Number(n.uid))]
  }

  predicate HasFlag(flags: Byte, weight: nat)
    requires weight > 0
  {
    (flags as int / weight) % 2 == 1
  }

  function Flagged(n: Notification): seq<Member> {
    [Named("event_flags", Number(n.flags))] + [Named("silent", Boolean(HasFlag(n.flags, 1)))]
    + [Named("important", Boolean(HasFlag(n.flags, 2)))] + [Named("pre_existing", Boolean(HasFlag(n.flags, 4)))]
    + [Named("positive_action_available", Boolean(HasFlag(n.flags, 8)))]
    + [Named("negative_action_available", Boolean(HasFlag(n.flags, 16)))]
  }

  function Categorized(n: Notification): seq<Member> {
    [Named("category_id", Number(n.categoryId))] + [Named("category", String(CategoryText(n.categoryId)))]
    + [Named("category_count", Number(n.categoryCount))]
  }

  function Told(n: Notification): seq<Member> {
    [Named("app_id", String(n.appId))] + [Named("app_name", String(n.appName))] + [Named("title", String(n.title))]
    + [Named("subtitle", String(n.subtitle))] + [Named("message", String(n.message))]
    + [Named("message_size", String(n.messageSize))] + [Named("date", String(n.date))]
  }

  function Truncated(n: Notification): Value {
    Object([Named("app_id", Boolean(n.appIdTruncated))]
           + ([Named("app_name", Boolean(n.appNameTruncated))] + [Named("title", Boolean(n.titleTruncated))]
              + [Named("subtitle", Boolean(n.subtitleTruncated))] + [Named("message", Boolean(n.messageTruncated))]))
  }

  function Error(n: Notification): Value {
    if n.complete && n.errorCode == 0 then Null
    else Object([Named("code", Number(n.errorCode))] + [Named("name", String(ErrorText(n.errorCode)))])
  }

  function Ended(n: Notification): seq<Member> {
    [Named("complete", Boolean(n.complete))] + [Named("truncated", Truncated(n))] + [Named("error", Error(n))]
    + [Named("received_at_ms", Number(n.receivedAt))]
  }

  /** What the line says. */
  function AsJson(n: Notification, target: Text, device: Text): Value {
    Object([Named("schema_version", Number(1))]
           + (Opened(target, device) + Identified(n) + Flagged(n) + Categorized(n) + Told(n) + Ended(n)))
  }

  lemma IdentityNames()
    ensures PlainName("session_id")
    ensures PlainName("event")
    ensures PlainName("event_id")
    ensures PlainName("uid")
  {
  }

  lemma IdentityIsPrinted(n: Notification)
    requires InRange(n)
    ensures Identity(n) == Tail(Identified(n))
  {
    hide Key, FirstKey, Pair, Tail, Decimal, SignedDecimal, Printed, Quoted, PlainName, Named, Ascii, EventName, EventText;
    EventNamesAgree(n.eventId);
    IdentityNames();
    NumberText(n.sessionId);
    StringText(EventText(n.eventId));
    NumberText(n.eventId);
    NumberText(n.uid);
    Leading("session_id", Number(n.sessionId));
    var t1, m1 := Key("session_id") + Decimal(n.sessionId), [Named("session_id", Number(n.sessionId))];
    OneMore(t1, [], m1, "event", String(EventText(n.eventId)));
    var t2, m2 := t1 + Key("event") + Quoted(EventText(n.eventId)), m1 + [Named("event", String(EventText(n.eventId)))];
    OneMore(t2, [], m2, "event_id", Number(n.eventId));
    var t3, m3 := t2 + Key("event_id") + Decimal(n.eventId), m2 + [Named("event_id", Number(n.eventId))];
    OneMore(t3, [], m3, "uid", Number(n.uid));
    NothingBefore(Tail(Identified(n)));
  }

  lemma FlagNames()
    ensures PlainName("event_flags")
    ensures PlainName("silent")
    ensures PlainName("important")
    ensures PlainName("pre_existing")
    ensures PlainName("positive_action_available")
    ensures PlainName("negative_action_available")
  {
  }

  lemma FlagText(flags: Byte, weight: nat)
    requires weight > 0
    ensures Flag(flags, weight) == Printed(Boolean(HasFlag(flags, weight)))
  {
  }

  lemma FlagsArePrinted(n: Notification)
    ensures Flags(n) == Tail(Flagged(n))
  {
    hide Key, FirstKey, Pair, Tail, Decimal, SignedDecimal, Printed, Quoted, PlainName, Named, Ascii, Flag, HasFlag;
    FlagNames();
    NumberText(n.flags);
    FlagText(n.flags, 1);
    FlagText(n.flags, 2);
    FlagText(n.flags, 4);
    FlagText(n.flags, 8);
    FlagText(n.flags, 16);
    Leading("event_flags", Number(n.flags));
    var t1, m1 := Key("event_flags") + Decimal(n.flags), [Named("event_flags", Number(n.flags))];
    OneMore(t1, [], m1, "silent", Boolean(HasFlag(n.flags, 1)));
    var t2, m2 := t1 + Key("silent") + Flag(n.flags, 1), m1 + [Named("silent", Boolean(HasFlag(n.flags, 1)))];
    OneMore(t2, [], m2, "important", Boolean(HasFlag(n.flags, 2)));
    var t3, m3 := t2 + Key("important") + Flag(n.flags, 2), m2 + [Named("important", Boolean(HasFlag(n.flags, 2)))];
    OneMore(t3, [], m3, "pre_existing", Boolean(HasFlag(n.flags, 4)));
    var t4 := t3 + Key("pre_existing") + Flag(n.flags, 4);
    var m4 := m3 + [Named("pre_existing", Boolean(HasFlag(n.flags, 4)))];
    OneMore(t4, [], m4, "positive_action_available", Boolean(HasFlag(n.flags, 8)));
    var t5 := t4 + Key("positive_action_available") + Flag(n.flags, 8);
    var m5 := m4 + [Named("positive_action_available", Boolean(HasFlag(n.flags, 8)))];
    OneMore(t5, [], m5, "negative_action_available", Boolean(HasFlag(n.flags, 16)));
    NothingBefore(Tail(Flagged(n)));
  }

  lemma CategoryNames()
    ensures PlainName("category_id")
    ensures PlainName("category")
    ensures PlainName("category_count")
  {
  }

  lemma CategoryIsPrinted(n: Notification)
    ensures Category(n) == Tail(Categorized(n))
  {
    hide Key, FirstKey, Pair, Tail, Decimal, SignedDecimal, Printed, Quoted, PlainName, Named, Ascii, CategoryName, CategoryText;
    CategoryNamesAgree(n.categoryId);
    CategoryNames();
    NumberText(n.categoryId);
    StringText(CategoryText(n.categoryId));
    NumberText(n.categoryCount);
    Leading("category_id", Number(n.categoryId));
    var t1, m1 := Key("category_id") + Decimal(n.categoryId), [Named("category_id", Number(n.categoryId))];
    OneMore(t1, [], m1, "category", String(CategoryText(n.categoryId)));
    var t2 := t1 + Key("category") + Quoted(CategoryText(n.categoryId));
    var m2 := m1 + [Named("category", String(CategoryText(n.categoryId)))];
    OneMore(t2, [], m2, "category_count", Number(n.categoryCount));
    NothingBefore(Tail(Categorized(n)));
  }

  lemma TextNames()
    ensures PlainName("app_id")
    ensures PlainName("app_name")
    ensures PlainName("title")
    ensures PlainName("subtitle")
    ensures PlainName("message")
    ensures PlainName("message_size")
    ensures PlainName("date")
  {
  }

  lemma FieldIsPrinted(name: string, text: Text)
    requires PlainName(name)
    ensures Field(name, text) == Tail([Named(name, String(text))])
  {
    hide Key, Tail, Quoted, Named, Printed;
    StringText(text);
    Leading(name, String(text));
    NothingBefore(Tail([Named(name, String(text))]));
  }

  lemma TextsArePrinted(n: Notification)
    ensures Texts(n) == Tail(Told(n))
  {
    hide Field, Tail, Named, PlainName;
    TextNames();
    FieldIsPrinted("app_id", n.appId);
    FieldIsPrinted("app_name", n.appName);
    FieldIsPrinted("title", n.title);
    FieldIsPrinted("subtitle", n.subtitle);
    FieldIsPrinted("message", n.message);
    FieldIsPrinted("message_size", n.messageSize);
    FieldIsPrinted("date", n.date);
    var m1 := [Named("app_id", String(n.appId))];
    TailAppend(m1, [Named("app_name", String(n.appName))]);
    var m2 := m1 + [Named("app_name", String(n.appName))];
    TailAppend(m2, [Named("title", String(n.title))]);
    var m3 := m2 + [Named("title", String(n.title))];
    TailAppend(m3, [Named("subtitle", String(n.subtitle))]);
    var m4 := m3 + [Named("subtitle", String(n.subtitle))];
    TailAppend(m4, [Named("message", String(n.message))]);
    var m5 := m4 + [Named("message", String(n.message))];
    TailAppend(m5, [Named("message_size", String(n.messageSize))]);
    var m6 := m5 + [Named("message_size", String(n.messageSize))];
    TailAppend(m6, [Named("date", String(n.date))]);
  }

  /** An object from its first member and the others. */
  lemma ObjectText(first: Member, rest: seq<Member>)
    ensures Printed(Object([first] + rest)) == [OPEN] + Pair(first) + Tail(rest) + [CLOSE]
  {
    hide Pair, Tail;
    assert ([first] + rest)[1..] == rest;
  }

  lemma OpeningNames()
    ensures PlainName("schema_version")
    ensures PlainName("target")
    ensures PlainName("device_name")
  {
  }

  lemma PlainText(text: seq<Byte>)
    requires Plain(text)
    ensures Quoted(text) == [QUOTE] + text + [QUOTE]
  {
    PlainIsPrinted(text);
  }

  lemma OpeningIsPrinted(target: Text, device: Text)
    requires Plain(target)
    ensures Opening(target, device) == [OPEN] + Pair(Named("schema_version", Number(1))) + Tail(Opened(target, device))
  {
    hide Key, FirstKey, Pair, Tail, Decimal, SignedDecimal, Printed, Quoted, PlainName, Named, Ascii, Plain;
    OpeningNames();
    NumberText(1);
    StringText(target);
    PlainText(target);
    StringText(device);
    Inside("schema_version", Number(1));
    var head := [OPEN] + Pair(Named("schema_version", Number(1)));
    var t0 := FirstKey("schema_version") + Decimal(1);
    OneMore(t0, head, [], "target", String(target));
    var t1, m1 := t0 + Key("target") + ([QUOTE] + target + [QUOTE]), [] + [Named("target", String(target))];
    OneMore(t1, head, m1, "device_name", String(device));
    assert [] + [Named("target", String(target))] == [Named("target", String(target))];
  }

  lemma TruncationsArePrinted(n: Notification)
    ensures Truncations(n) == Printed(Truncated(n))
  {
    hide Key, FirstKey, Pair, Tail, Decimal, SignedDecimal, Printed, Quoted, PlainName, Named, Ascii;
    TextNames();
    Inside("app_id", Boolean(n.appIdTruncated));
    var head := [OPEN] + Pair(Named("app_id", Boolean(n.appIdTruncated)));
    var t0 := FirstKey("app_id") + Bool(n.appIdTruncated);
    OneMore(t0, head, [], "app_name", Boolean(n.appNameTruncated));
    var t1 := t0 + Key("app_name") + Bool(n.appNameTruncated);
    var m1 := [] + [Named("app_name", Boolean(n.appNameTruncated))];
    OneMore(t1, head, m1, "title", Boolean(n.titleTruncated));
    var t2, m2 := t1 + Key("title") + Bool(n.titleTruncated), m1 + [Named("title", Boolean(n.titleTruncated))];
    OneMore(t2, head, m2, "subtitle", Boolean(n.subtitleTruncated));
    var t3 := t2 + Key("subtitle") + Bool(n.subtitleTruncated);
    var m3 := m2 + [Named("subtitle", Boolean(n.subtitleTruncated))];
    OneMore(t3, head, m3, "message", Boolean(n.messageTruncated));
    var m4 := m3 + [Named("message", Boolean(n.messageTruncated))];
    assert m1 == [Named("app_name", Boolean(n.appNameTruncated))];
    ObjectText(Named("app_id", Boolean(n.appIdTruncated)), m4);
  }

  lemma ErrorNames()
    ensures PlainName("code") && PlainName("name")
  {
  }

  lemma SignedText(i: int)
    ensures Printed(Number(i)) == SignedDecimal(i)
  {
  }

  lemma ErrorIsPrinted(n: Notification)
    ensures ErrorPart(n) == Printed(Error(n))
  {
    if n.complete && n.errorCode == 0 {
    } else {
      hide Key, FirstKey, Pair, Tail, Decimal, SignedDecimal, Printed, Quoted, PlainName, Named, Ascii, ErrorName, ErrorText;
      ErrorNamesAgree(n.errorCode);
      ErrorNames();
      SignedText(n.errorCode);
      StringText(ErrorText(n.errorCode));
      var code, name := Named("code", Number(n.errorCode)), Named("name", String(ErrorText(n.errorCode)));
      Inside("code", Number(n.errorCode));
      var t0 := FirstKey("code") + SignedDecimal(n.errorCode);
      OneMore(t0, [OPEN] + Pair(code), [], "name", String(ErrorText(n.errorCode)));
      assert [] + [name] == [name];
      ObjectText(code, [name]);
    }
  }

  lemma EndNames()
    ensures PlainName("complete")
    ensures PlainName("truncated")
    ensures PlainName("error")
    ensures PlainName("received_at_ms")
  {
  }

  lemma EndIsPrinted(n: Notification)
    ensures Completeness(n) + ErrorPart(n) + Closing(n) == Tail(Ended(n)) + [CLOSE]
  {
    hide Key, FirstKey, Pair, Tail, Decimal, SignedDecimal, Printed, Quoted, PlainName, Named, Ascii, Truncated, Truncations,
         Error, ErrorPart;
    EndNames();
    TruncationsArePrinted(n);
    ErrorIsPrinted(n);
    SignedText(n.receivedAt);
    Leading("complete", Boolean(n.complete));
    var t1, m1 := Key("complete") + Bool(n.complete), [Named("complete", Boolean(n.complete))];
    OneMore(t1, [], m1, "truncated", Truncated(n));
    var t2, m2 := t1 + Key("truncated") + Truncations(n), m1 + [Named("truncated", Truncated(n))];
    OneMore(t2, [], m2, "error", Error(n));
    var t3, m3 := t2 + Key("error") + ErrorPart(n), m2 + [Named("error", Error(n))];
    OneMore(t3, [], m3, "received_at_ms", Number(n.receivedAt));
    NothingBefore(Tail(Ended(n)));
    assert Completeness(n) + ErrorPart(n) == t3;
    Enclose(t3, Key("received_at_ms"), SignedDecimal(n.receivedAt));
  }

  lemma Enclose(t: seq<Byte>, key: seq<Byte>, value: seq<Byte>)
    ensures t + (key + value + [CLOSE]) == t + key + value + [CLOSE]
  {
  }

  /** The line is the printed object. */
  lemma LineIsPrinted(n: Notification, target: Text, device: Text)
    requires InRange(n) && Plain(target)
    ensures Document(n, target, device) == Printed(AsJson(n, target, device))
  {
    OpeningIsPrinted(target, device);
    IdentityIsPrinted(n);
    FlagsArePrinted(n);
    CategoryIsPrinted(n);
    TextsArePrinted(n);
    EndIsPrinted(n);
    var first := Named("schema_version", Number(1));
    var a, b, c, d, e, f := Opened(target, device), Identified(n), Flagged(n), Categorized(n), Told(n), Ended(n);
    ObjectText(first, a + b + c + d + e + f);
    hide Opening, Identity, Flags, Category, Texts, Completeness, ErrorPart, Closing, Pair, Tail, Printed, Named, Opened,
         Identified, Flagged, Categorized, Told, Ended;
    TailAppend(a, b);
    TailAppend(a + b, c);
    TailAppend(a + b + c, d);
    TailAppend(a + b + c + d, e);
    TailAppend(a + b + c + d + e, f);
    Joins(Opening(target, device), Identity(n), Flags(n), Category(n), Texts(n), Completeness(n), ErrorPart(n), Closing(n),
          [OPEN] + Pair(first), Tail(a), Tail(f));
  }

  lemma Joins(o: seq<Byte>, i: seq<Byte>, f: seq<Byte>, c: seq<Byte>, t: seq<Byte>, x: seq<Byte>, y: seq<Byte>, z: seq<Byte>,
              first: seq<Byte>, a: seq<Byte>, end: seq<Byte>)
    requires o == first + a && x + y + z == end + [CLOSE]
    ensures o + i + f + c + t + x + y + z == first + (a + i + f + c + t + end) + [CLOSE]
  {
    assert o + i + f + c + t + x + y + z == o + i + f + c + t + (x + y + z);
  }

  lemma {:induction false} AllAreZeroFree(members: seq<Member>)
    requires forall m <- members :: MemberZeroFree(m)
    ensures AllZeroFree(members)
  {
    hide MemberZeroFree;
    if members != [] {
      assert members[0] in members && forall m <- members[1..] :: m in members;
      AllAreZeroFree(members[1..]);
    }
  }

  lemma NamedIsZeroFree(name: string, value: Value)
    requires PlainName(name) && ZeroFree(value)
    ensures MemberZeroFree(Named(name, value))
  {
    hide ZeroFree;
    NameIsPlain(name);
  }

  lemma OpenedIsZeroFree(target: Text, device: Text)
    ensures forall m <- Opened(target, device) :: MemberZeroFree(m)
  {
    hide PlainName, MemberZeroFree, Named;
    OpeningNames();
    NamedIsZeroFree("target", String(target));
    NamedIsZeroFree("device_name", String(device));
  }

  lemma IdentifiedIsZeroFree(n: Notification)
    ensures forall m <- Identified(n) :: MemberZeroFree(m)
  {
    hide PlainName, MemberZeroFree, Named, EventText;
    IdentityNames();
    NamedIsZeroFree("session_id", Number(n.sessionId));
    NamedIsZeroFree("event", String(EventText(n.eventId)));
    NamedIsZeroFree("event_id", Number(n.eventId));
    NamedIsZeroFree("uid", Number(n.uid));
  }

  lemma FlaggedIsZeroFree(n: Notification)
    ensures forall m <- Flagged(n) :: MemberZeroFree(m)
  {
    hide PlainName, MemberZeroFree, Named, HasFlag;
    FlagNames();
    NamedIsZeroFree("event_flags", Number(n.flags));
    NamedIsZeroFree("silent", Boolean(HasFlag(n.flags, 1)));
    NamedIsZeroFree("important", Boolean(HasFlag(n.flags, 2)));
    NamedIsZeroFree("pre_existing", Boolean(HasFlag(n.flags, 4)));
    NamedIsZeroFree("positive_action_available", Boolean(HasFlag(n.flags, 8)));
    NamedIsZeroFree("negative_action_available", Boolean(HasFlag(n.flags, 16)));
  }

  lemma CategorizedIsZeroFree(n: Notification)
    ensures forall m <- Categorized(n) :: MemberZeroFree(m)
  {
    hide PlainName, MemberZeroFree, Named, CategoryText;
    CategoryNames();
    NamedIsZeroFree("category_id", Number(n.categoryId));
    NamedIsZeroFree("category", String(CategoryText(n.categoryId)));
    NamedIsZeroFree("category_count", Number(n.categoryCount));
  }

  lemma ToldIsZeroFree(n: Notification)
    ensures forall m <- Told(n) :: MemberZeroFree(m)
  {
    hide PlainName, MemberZeroFree, Named;
    TextNames();
    NamedIsZeroFree("app_id", String(n.appId));
    NamedIsZeroFree("app_name", String(n.appName));
    NamedIsZeroFree("title", String(n.title));
    NamedIsZeroFree("subtitle", String(n.subtitle));
    NamedIsZeroFree("message", String(n.message));
    NamedIsZeroFree("message_size", String(n.messageSize));
    NamedIsZeroFree("date", String(n.date));
  }

  lemma TruncatedIsZeroFree(n: Notification)
    ensures ZeroFree(Truncated(n))
  {
    hide PlainName, MemberZeroFree, Named, AllZeroFree;
    TextNames();
    NamedIsZeroFree("app_id", Boolean(n.appIdTruncated));
    NamedIsZeroFree("app_name", Boolean(n.appNameTruncated));
    NamedIsZeroFree("title", Boolean(n.titleTruncated));
    NamedIsZeroFree("subtitle", Boolean(n.subtitleTruncated));
    NamedIsZeroFree("message", Boolean(n.messageTruncated));
    AllAreZeroFree(Truncated(n).members);
  }

  lemma ErrorIsZeroFree(n: Notification)
    ensures ZeroFree(Error(n))
  {
    hide PlainName, MemberZeroFree, Named, AllZeroFree, ErrorText;
    ErrorNames();
    NamedIsZeroFree("code", Number(n.errorCode));
    NamedIsZeroFree("name", String(ErrorText(n.errorCode)));
    if !n.complete || n.errorCode != 0 {
      AllAreZeroFree(Error(n).members);
    }
  }

  lemma EndedIsZeroFree(n: Notification)
    ensures forall m <- Ended(n) :: MemberZeroFree(m)
  {
    hide PlainName, MemberZeroFree, Named, Truncated, Error;
    EndNames();
    TruncatedIsZeroFree(n);
    ErrorIsZeroFree(n);
    NamedIsZeroFree("complete", Boolean(n.complete));
    NamedIsZeroFree("truncated", Truncated(n));
    NamedIsZeroFree("error", Error(n));
    NamedIsZeroFree("received_at_ms", Number(n.receivedAt));
  }

  lemma JsonIsZeroFree(n: Notification, target: Text, device: Text)
    ensures ZeroFree(AsJson(n, target, device))
  {
    hide PlainName, MemberZeroFree, Named, AllZeroFree, Opened, Identified, Flagged, Categorized, Told, Ended;
    OpeningNames();
    NamedIsZeroFree("schema_version", Number(1));
    OpenedIsZeroFree(target, device);
    IdentifiedIsZeroFree(n);
    FlaggedIsZeroFree(n);
    CategorizedIsZeroFree(n);
    ToldIsZeroFree(n);
    EndedIsZeroFree(n);
    AllAreZeroFree(AsJson(n, target, device).members);
  }

  /**
   * The line can be read back: a JSON reader gets the object with all its
   * members, each text cleaned, and nothing is left over.
   */
  lemma LineReadsBack(n: Notification, target: Text, device: Text)
    requires InRange(n) && Plain(target)
    ensures ReadValue(Document(n, target, device)) == Some((Cleaned(AsJson(n, target, device)), []))
  {
    hide Document, AsJson, Cleaned, Printed, ReadValue, Plain, ZeroFree;
    var v := AsJson(n, target, device);
    LineIsPrinted(n, target, device);
    JsonIsZeroFree(n, target, device);
    PrintedReads(v, []);
    assert Printed(v) + [] == Printed(v);
  }

  /** Nothing is lost exactly if every text is valid UTF-8. */
  lemma LineReadsBackIffWellEncoded(n: Notification, target: Text, device: Text)
    requires InRange(n) && Plain(target)
    ensures ReadValue(Document(n, target, device)) == Some((AsJson(n, target, device), []))
        <==> WellEncoded(AsJson(n, target, device))
  {
    hide Document, AsJson, ReadValue, Cleaned, WellEncoded, Plain;
    LineReadsBack(n, target, device);
    CleanedIffWellEncoded(AsJson(n, target, device));
  }
}
