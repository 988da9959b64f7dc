/** Which notifications are relayed: the relay id, the ring of recent ids and the decision. */
module RelayPolicy {
  import opened Bytes
  import opened Words
  import Sha256
  import Dedupe

  const RECENT_CAPACITY: nat := 8

  /** The text of the Home Assistant app's identifier, "io.robbie.HomeAssistant". */
  const HA_APP_ID: seq<bv8> :=
    [105, 111, 46, 114, 111, 98, 98, 105, 101, 46, 72, 111, 109, 101, 65, 115, 115, 105, 115, 116, 97, 110, 116]

  /** A C string: its bytes before the terminating zero. */
  type Text = s: seq<bv8> | 0 !in s witness []

  datatype Notification = Notification(
    sessionId: bv32,
    uid: bv32,
    eventId: bv8,
    flags: bv8,
    complete: bool,
    appId: Text,
    title: Text,
    subtitle: Text,
    message: Text,
    date: Text)

  datatype Connectivity = Connectivity(wifi: bool, mqtt: bool, bootNonce: bv32)

  datatype Decision = Publish | DropPreExisting | DropOffline | DropEcho | DropDuplicate | DropIncomplete | DropInvalid | DropEvent

  // ---------- The relay id ----------

  function Widened(b: bv8): bv32 {
    b as bv32
  }

  function CString(t: Text): seq<bv8> {
    t + [0]
  }

  /** The pieces hashed for a relay id, in order. */
  function Pieces(n: Notification, nonce: bv32): seq<seq<bv8>> {
    [Le32(nonce), Le32(n.sessionId), Le32(n.uid), Le32(Widened(n.eventId)),
     CString(n.appId), CString(n.title), CString(n.subtitle), CString(n.message), CString(n.date)]
  }

  function Preimage(n: Notification, nonce: bv32): seq<bv8> {
    Flatten(Pieces(n, nonce))
  }

  function Digit(d: bv8): char {
    if d == 0 then '0' else if d == 1 then '1' else if d == 2 then '2' else if d == 3 then '3'
    else if d == 4 then '4' else if d == 5 then '5' else if d == 6 then '6' else if d == 7 then '7'
    else if d == 8 then '8' else if d == 9 then '9' else if d == 10 then 'a' else if d == 11 then 'b'
    else if d == 12 then 'c' else if d == 13 then 'd' else if d == 14 then 'e' else 'f'
  }

  function High(b: bv8): bv8 { b >> 4 }

  function Low(b: bv8): bv8 { b & 0xf }

  function HexByte(b: bv8): (s: string)
    ensures |s| == 2
  {
    [Digit(High(b)), Digit(Low(b))]
  }

  function Hex(bytes: seq<bv8>): (s: string)
    ensures |s| == 2 * |bytes|
  {
    if bytes == [] then [] else HexByte(bytes[0]) + Hex(bytes[1..])
  }

  /** The first 16 bytes of the digest, in hexadecimal. */
  function RelayId(n: Notification, nonce: bv32): (id: string)
    ensures |id| == 32
  {
    Hex(Sha256.Digest(Preimage(n, nonce))[..16])
  }

  lemma Le32IsInjective(v: bv32, w: bv32)
    requires Le32(v) == Le32(w)
    ensures v == w
  {
    hide Le32, FromLe32;
    Le32RoundTrip(v);
    Le32RoundTrip(w);
  }

  lemma WideningIsInjective(a: bv8, b: bv8)
    requires Widened(a) == Widened(b)
    ensures a == b
  {
  }

  /** A terminated string is found again at the front of whatever follows it. */
  lemma TextPrefix(s: Text, t: Text, x: seq<bv8>, y: seq<bv8>)
    requires CString(s) + x == CString(t) + y
    ensures s == t && x == y
  {
    var whole := CString(s) + x;
    assert whole[|s|] == 0 && (CString(t) + y)[|t|] == 0;
    assert forall i :: 0 <= i < |s| ==> whole[i] == s[i] != 0;
    assert forall i :: 0 <= i < |t| ==> (CString(t) + y)[i] == t[i] != 0;
    assert |s| == |t|;
    assert s == whole[..|s|] && t == (CString(t) + y)[..|t|];
    assert x == whole[|s| + 1..] && y == (CString(t) + y)[|t| + 1..];
  }

  lemma FixedPrefix(s: seq<bv8>, t: seq<bv8>, x: seq<bv8>, y: seq<bv8>)
    requires |s| == |t| && s + x == t + y
    ensures s == t && x == y
  {
    assert s == (s + x)[..|s|] && t == (t + y)[..|t|];
    assert x == (s + x)[|s|..] && y == (t + y)[|t|..];
  }

  function Numbers(n: Notification, nonce: bv32): (s: seq<bv8>)
    ensures |s| == 16
  {
    Le32(nonce) + Le32(n.sessionId) + Le32(n.uid) + Le32(Widened(n.eventId))
  }

  function Texts(n: Notification): seq<seq<bv8>> {
    [CString(n.appId), CString(n.title), CString(n.subtitle), CString(n.message), CString(n.date)]
  }

  lemma PreimageSplits(n: Notification, nonce: bv32)
    ensures Preimage(n, nonce) == Numbers(n, nonce) + Flatten(Texts(n))
  {
    hide Le32, CString;
    var p := Pieces(n, nonce);
    assert p[1..][1..][1..][1..] == Texts(n);
    assert Flatten(p) == p[0] + (p[1] + (p[2] + (p[3] + Flatten(Texts(n))))) by {
      assert p[1..][0] == p[1] && p[1..][1..][0] == p[2] && p[1..][1..][1..][0] == p[3];
      assert Flatten(p[1..][1..]) == p[2] + Flatten(p[1..][1..][1..]);
    }
  }

  lemma NumbersAreInjective(n: Notification, a: bv32, m: Notification, b: bv32)
    requires Numbers(n, a) == Numbers(m, b)
    ensures a == b && n.sessionId == m.sessionId && n.uid == m.uid && n.eventId == m.eventId
  {
    hide Le32, Widened;
    FixedPrefix(Le32(a) + Le32(n.sessionId) + Le32(n.uid), Le32(b) + Le32(m.sessionId) + Le32(m.uid),
                Le32(Widened(n.eventId)), Le32(Widened(m.eventId)));
    FixedPrefix(Le32(a) + Le32(n.sessionId), Le32(b) + Le32(m.sessionId), Le32(n.uid), Le32(m.uid));
    FixedPrefix(Le32(a), Le32(b), Le32(n.sessionId), Le32(m.sessionId));
    Le32IsInjective(a, b);
    Le32IsInjective(n.sessionId, m.sessionId);
    Le32IsInjective(n.uid, m.uid);
    Le32IsInjective(Widened(n.eventId), Widened(m.eventId));
    WideningIsInjective(n.eventId, m.eventId);
  }

  /** Concatenated terminated texts determine each of them. */
  lemma {:induction false} TextsAreInjective(s: seq<Text>, t: seq<Text>)
    requires |s| == |t| && Flatten(Terminated(s)) == Flatten(Terminated(t))
    ensures s == t
  {
    hide CString;
    if s != [] {
      assert Terminated(s)[1..] == Terminated(s[1..]) && Terminated(t)[1..] == Terminated(t[1..]);
      TextPrefix(s[0], t[0], Flatten(Terminated(s[1..])), Flatten(Terminated(t[1..])));
      TextsAreInjective(s[1..], t[1..]);
      assert s == [s[0]] + s[1..] && t == [t[0]] + t[1..];
    }
  }

  function Terminated(s: seq<Text>): (r: seq<seq<bv8>>)
    ensures |r| == |s|
  {
    seq(|s|, i requires 0 <= i < |s| => CString(s[i]))
  }

  function TextFields(n: Notification): seq<Text> {
    [n.appId, n.title, n.subtitle, n.message, n.date]
  }

  /** What is hashed for a relay id determines all nine of its fields. */
  lemma PreimageIsInjective(n: Notification, a: bv32, m: Notification, b: bv32)
    requires Preimage(n, a) == Preimage(m, b)
    ensures a == b && n.sessionId == m.sessionId && n.uid == m.uid && n.eventId == m.eventId
    ensures n.appId == m.appId && n.title == m.title && n.subtitle == m.subtitle && n.message == m.message && n.date == m.date
  {
    hide Preimage, Numbers, CString, Flatten;
    PreimageSplits(n, a);
    PreimageSplits(m, b);
    FixedPrefix(Numbers(n, a), Numbers(m, b), Flatten(Texts(n)), Flatten(Texts(m)));
    NumbersAreInjective(n, a, m, b);
    assert Texts(n) == Terminated(TextFields(n)) && Texts(m) == Terminated(TextFields(m));
    TextsAreInjective(TextFields(n), TextFields(m));
    assert TextFields(n)[0] == TextFields(m)[0] && TextFields(n)[1] == TextFields(m)[1] && TextFields(n)[2] == TextFields(m)[2]
        && TextFields(n)[3] == TextFields(m)[3] && TextFields(n)[4] == TextFields(m)[4];
  }

  lemma DigitIsInjective(a: bv8, b: bv8)
    requires a < 16 && b < 16 && Digit(a) == Digit(b)
    ensures a == b
  {
  }

  lemma Nibbles(a: bv8, b: bv8)
    ensures High(a) < 16 && Low(a) < 16
    ensures High(a) == High(b) && Low(a) == Low(b) ==> a == b
  {
  }

  lemma HexByteIsInjective(a: bv8, b: bv8)
    requires HexByte(a) == HexByte(b)
    ensures a == b
  {
    hide Digit, High, Low;
    assert HexByte(a)[0] == HexByte(b)[0] && HexByte(a)[1] == HexByte(b)[1];
    Nibbles(a, b);
    Nibbles(b, a);
    DigitIsInjective(High(a), High(b));
    DigitIsInjective(Low(a), Low(b));
  }

  /** Different bytes give different hexadecimal text. */
  lemma {:induction false} HexIsInjective(s: seq<bv8>, t: seq<bv8>)
    requires |s| == |t| && Hex(s) == Hex(t)
    ensures s == t
  {
    hide HexByte;
    if s != [] {
      assert Hex(s)[..2] == HexByte(s[0]) && Hex(t)[..2] == HexByte(t[0]);
      assert Hex(s)[2..] == Hex(s[1..]) && Hex(t)[2..] == Hex(t[1..]);
      HexByteIsInjective(s[0], t[0]);
      HexIsInjective(s[1..], t[1..]);
      assert s == [s[0]] + s[1..] && t == [t[0]] + t[1..];
    }
  }

  // ---------- Reading back what is hashed and printed ----------

  /** The value of a lower-case hexadecimal digit. */
  function DigitValue(c: char): nat {
    if '0' <= c <= '9' then c as nat - '0' as nat else if 'a' <= c <= 'f' then c as nat - 'a' as nat + 10 else 16
  }

  function ReadHex(text: string): seq<nat>
    decreases |text|
  {
    if |text| < 2 then [] else [16 * DigitValue(text[0]) + DigitValue(text[1])] + ReadHex(text[2..])
  }

  lemma DigitReads(d: bv8)
    requires d < 16
    ensures DigitValue(Digit(d)) == d as nat
  {
  }

  lemma NibblesJoin(b: bv8)
    ensures High(b) < 16 && Low(b) < 16 && 16 * (High(b) as nat) + Low(b) as nat == b as nat
  {
    assert (b >> 4) as nat == b as nat / 16;
    assert (b & 0xf) as nat == b as nat % 16;
  }

  /** A reader of two-digit hexadecimal numbers gets back the bytes. */
  lemma {:induction false} HexReads(bytes: seq<bv8>)
    ensures |ReadHex(Hex(bytes))| == |bytes| && forall i :: 0 <= i < |bytes| ==> ReadHex(Hex(bytes))[i] == bytes[i] as nat
  {
    hide Digit, DigitValue, High, Low;
    if bytes != [] {
      var text := Hex(bytes);
      assert text[..2] == HexByte(bytes[0]) && text[2..] == Hex(bytes[1..]);
      NibblesJoin(bytes[0]);
      DigitReads(High(bytes[0]));
      DigitReads(Low(bytes[0]));
      HexReads(bytes[1..]);
    }
  }

  /** A reader of the hashed bytes: so many numbers, then texts up to their zero bytes. */
  function ReadNumbers(bytes: seq<bv8>, n: nat): seq<bv32>
    decreases n
  {
    if n == 0 || |bytes| < 4 then [] else [FromLe32(bytes[..4])] + ReadNumbers(bytes[4..], n - 1)
  }

  function ReadTexts(bytes: seq<bv8>): seq<seq<bv8>>
    decreases |bytes|
  {
    if 0 !in bytes then []
    else
      var n := TextLength(bytes);
      [bytes[..n]] + ReadTexts(bytes[n + 1..])
  }

  /** The position of the first zero byte. */
  function TextLength(bytes: seq<bv8>): (n: nat)
    requires 0 in bytes
    ensures n < |bytes| && bytes[n] == 0 && forall i :: 0 <= i < n ==> bytes[i] != 0
  {
    if bytes[0] == 0 then 0 else 1 + TextLength(bytes[1..])
  }

  lemma NumberReads(v: bv32, rest: seq<bv8>, n: nat)
    ensures ReadNumbers(Le32(v) + rest, n + 1) == [v] + ReadNumbers(rest, n)
  {
    hide Le32, FromLe32;
    Le32RoundTrip(v);
    assert (Le32(v) + rest)[..4] == Le32(v) && (Le32(v) + rest)[4..] == rest;
  }

  lemma TextReads(t: Text, rest: seq<bv8>)
    ensures ReadTexts(CString(t) + rest) == [t] + ReadTexts(rest)
  {
    var bytes := CString(t) + rest;
    assert bytes[|t|] == 0;
    assert forall i :: 0 <= i < |t| ==> bytes[i] == t[i] != 0;
    var n := TextLength(bytes);
    assert n == |t| && bytes[..n] == t;
    assert bytes[n + 1..] == rest;
  }

  lemma {:induction false} TextsRead(texts: seq<Text>)
    ensures ReadTexts(Flatten(Terminated(texts))) == texts
  {
    hide CString, ReadTexts;
    if texts == [] {
      NoTexts();
    } else {
      assert Terminated(texts)[1..] == Terminated(texts[1..]);
      TextReads(texts[0], Flatten(Terminated(texts[1..])));
      TextsRead(texts[1..]);
    }
  }

  lemma NoTexts()
    ensures ReadTexts([]) == []
  {
  }

  lemma NumbersRead(a: bv32, b: bv32, c: bv32, d: bv32, rest: seq<bv8>)
    ensures ReadNumbers(Le32(a) + Le32(b) + Le32(c) + Le32(d) + rest, 4) == [a, b, c, d]
  {
    hide Le32;
    var r3 := Le32(d) + rest;
    var r2 := Le32(c) + r3;
    var r1 := Le32(b) + r2;
    assert Le32(a) + Le32(b) + Le32(c) + Le32(d) + rest == Le32(a) + r1;
    NumberReads(a, r1, 3);
    NumberReads(b, r2, 2);
    NumberReads(c, r3, 1);
    NumberReads(d, rest, 0);
    hide ReadNumbers;
    NoNumbers(rest);
  }

  lemma NoNumbers(rest: seq<bv8>)
    ensures ReadNumbers(rest, 0) == []
  {
  }

  /** What is hashed is the boot nonce, the session, the notification and the event, and then the five texts, in this order. */
  lemma PreimageReads(n: Notification, nonce: bv32)
    ensures ReadNumbers(Preimage(n, nonce), 4) == [nonce, n.sessionId, n.uid, n.eventId as bv32]
    ensures |Preimage(n, nonce)| >= 16
    ensures ReadTexts(Preimage(n, nonce)[16..]) == [n.appId, n.title, n.subtitle, n.message, n.date]
  {
    PreimageSplits(n, nonce);
    hide Preimage, Le32, CString, ReadTexts, ReadNumbers, Flatten;
    NumbersRead(nonce, n.sessionId, n.uid, Widened(n.eventId), Flatten(Texts(n)));
    assert Preimage(n, nonce)[16..] == Flatten(Texts(n));
    assert Texts(n) == Terminated(TextFields(n));
    TextsRead(TextFields(n));
  }

  /** Hashes the fields piece by piece, as the source does, and prints half of the digest. */
  method BuildId(n: Notification, nonce: bv32) returns (id: string)
    ensures id == RelayId(n, nonce)
  {
    hide Sha256.Digest, Sha256.Updated, Sha256.Of, Le32, CString;
    var hasher := new Sha256.Hasher();
    var pieces := Pieces(n, nonce);
    StartIsEmpty();
    for i := 0 to |pieces|
      invariant fresh(hasher) && fresh(hasher.state) && fresh(hasher.buffer)
      invariant hasher.Valid() && hasher.View() == Sha256.Of(Flatten(pieces[..i]))
    {
      Sha256.UpdateExtends(Flatten(pieces[..i]), pieces[i]);
      FlattenAppend(pieces[..i], pieces[i]);
      assert pieces[..i + 1] == pieces[..i] + [pieces[i]];
      hasher.Update(pieces[i]);
    }
    assert pieces[..|pieces|] == pieces;
    var digest := hasher.Finish(Preimage(n, nonce));
    id := PrintHex(digest[..16]);
  }

  method PrintHex(bytes: seq<bv8>) returns (text: string)
    ensures text == Hex(bytes)
  {
    hide HexByte;
    text := "";
    for i := 0 to |bytes|
      invariant text + Hex(bytes[i..]) == Hex(bytes)
    {
      assert bytes[i..][1..] == bytes[i + 1..];
      text := text + HexByte(bytes[i]);
    }
  }

  lemma StartIsEmpty()
    ensures Sha256.START == Sha256.Of(Flatten([]))
  {
  }

  // ---------- The decision ----------

  const PRE_EXISTING: bv8 := 4

  /** The last ids of a history, as many as the ring holds. */
  function Last(history: seq<string>): seq<string> {
    Dedupe.LastOf(history, RECENT_CAPACITY)
  }

  /** What must hold for a notification to be relayed unless it is a duplicate. */
  predicate Relevant(n: Notification, c: Connectivity) {
    && n.complete && (n.eventId == 0 || n.eventId == 1) && n.flags & 4 == 0
    && n.appId != [] && n.appId != HA_APP_ID && c.wifi && c.mqtt
  }

  /** A complete notification that was added or modified while the phone was connected. */
  predicate Live(n: Notification) {
    n.appId != [] && n.eventId <= 1 && n.complete && n.flags & 4 == 0
  }

  /** The decision on a notification, given the ids in the ring: the first rule that applies. */
  function Decided(n: Notification, c: Connectivity, recent: seq<string>): (d: Decision)
    ensures d == Publish <==> Relevant(n, c) && RelayId(n, c.bootNonce) !in recent
    ensures d == DropDuplicate <==> Relevant(n, c) && RelayId(n, c.bootNonce) in recent
    ensures d == DropInvalid <==> n.appId == []
    ensures d == DropEvent <==> n.appId != [] && n.eventId > 1
    ensures d == DropIncomplete <==> n.appId != [] && n.eventId <= 1 && !n.complete
    ensures d == DropPreExisting <==> n.appId != [] && n.eventId <= 1 && n.complete && n.flags & 4 != 0
    ensures d == DropOffline <==> Live(n) && !(c.wifi && c.mqtt)
    ensures d == DropEcho <==> Live(n) && c.wifi && c.mqtt && n.appId == HA_APP_ID
  {
    if n.appId == [] then DropInvalid
    else if n.eventId != 0 && n.eventId != 1 then DropEvent
    else if !n.complete then DropIncomplete
    else if n.flags & PRE_EXISTING != 0 then DropPreExisting
    else if !c.wifi || !c.mqtt then DropOffline
    else if n.appId == HA_APP_ID then DropEcho
    else if RelayId(n, c.bootNonce) in recent then DropDuplicate
    else Publish
  }

  // ---------- Runs ----------

  /** A notification is observed, and queued if there is room; a reconfiguration clears the ring. */
  datatype Event = Observed(n: Notification, c: Connectivity, room: bool) | Reconfigured

  predicate Relays(l: Dedupe.Log, e: Event) {
    e.Observed? && e.room && Decided(e.n, e.c, Dedupe.Window(l, RECENT_CAPACITY)) == Publish
  }

  function After(l: Dedupe.Log, e: Event): Dedupe.Log {
    if e == Reconfigured then Dedupe.Cleared(l)
    else if Relays(l, e) then Dedupe.Taken(l, RelayId(e.n, e.c.bootNonce))
    else l
  }

  /** The ids relayed over a run, in order. */
  ghost function Run(events: seq<Event>): Dedupe.Log {
    if events == [] then Dedupe.EMPTY else After(Run(events[..|events| - 1]), events[|events| - 1])
  }

  lemma StepSeparates(l: Dedupe.Log, e: Event)
    requires Dedupe.Separate(l, RECENT_CAPACITY)
    ensures Dedupe.Separate(After(l, e), RECENT_CAPACITY)
  {
    hide Dedupe.Separate, RelayId;
    if e == Reconfigured {
      Dedupe.ClearingSeparates(l, RECENT_CAPACITY);
    } else if Relays(l, e) {
      Dedupe.TakingSeparates(l, RECENT_CAPACITY, RelayId(e.n, e.c.bootNonce));
    }
  }

  lemma {:induction false} RunsSeparate(events: seq<Event>)
    ensures Dedupe.Separate(Run(events), RECENT_CAPACITY)
    decreases |events|
  {
    hide Dedupe.Separate, After;
    if events == [] {
      Dedupe.EmptyIsSeparate(RECENT_CAPACITY);
    } else {
      RunsSeparate(events[..|events| - 1]);
      StepSeparates(Run(events[..|events| - 1]), events[|events| - 1]);
    }
  }

  /**
   * Over every run, any nine consecutive relayed notifications have distinct
   * ids, unless a reconfiguration cleared the ring between two of them.
   */
  lemma {:induction false} NineInARowDiffer(events: seq<Event>, i: nat, j: nat)
    requires i < j < |Run(events).ids| && j <= i + 8
    ensures Run(events).ids[i] == Run(events).ids[j] ==> Dedupe.CutBetween(Run(events), i, j)
  {
    hide Run;
    RunsSeparate(events);
  }

  /** What a run takes in on top of an earlier one. */
  lemma {:induction false} RunContinues(before: seq<Event>, more: seq<Event>)
    ensures var l, m := Run(before), Run(before + more);
            && l.ids <= m.ids && l.cuts <= m.cuts
            && (forall k :: |l.cuts| <= k < |m.cuts| ==> |l.ids| <= m.cuts[k] <= |m.ids|)
            && (m.cuts == l.cuts <==> Reconfigured !in more)
    decreases |more|
  {
    hide Decided, RelayId;
    if more == [] {
      assert before + more == before;
    } else {
      var shorter := more[..|more| - 1];
      assert (before + more)[..|before + more| - 1] == before + shorter;
      RunContinues(before, shorter);
      assert more == shorter + [more[|more| - 1]];
    }
  }

  /**
   * A relayed notification that is observed again, and whose id was not relayed
   * since, is relayed again if and only if a reconfiguration came between or
   * at least eight others were relayed.
   */
  lemma RelayedAgainIff(before: seq<Event>, between: seq<Event>, e: Event)
    requires Relays(Run(before), e)
    requires var m := Run(before + [e] + between);
             forall k :: |Run(before).ids| < k < |m.ids| ==> m.ids[k] != RelayId(e.n, e.c.bootNonce)
    ensures Relays(Run(before + [e] + between), e)
        <==> Reconfigured in between || |Run(before + [e] + between).ids| > |Run(before).ids| + 8
  {
    var l, id := Run(before), RelayId(e.n, e.c.bootNonce);
    assert (before + [e])[..|before|] == before;
    assert Run(before + [e]) == Dedupe.Taken(l, id);
    RunsSeparate(before);
    RunsSeparate(before + [e] + between);
    RunContinues(before + [e], between);
    hide Run, RelayId, Decided, Relevant;
    var m := Run(before + [e] + between);
    if |m.ids| < |l.ids| + 8 + 1 {
      assert Dedupe.Continues(Dedupe.Taken(l, id), m, 8, id);
      Dedupe.TakenAgainIffCleared(l, m, 8, id);
      OfferedIffOutside(m, id);
    } else {
      LastEightAreOthers(m, |l.ids|, id);
    }
  }

  lemma OfferedIffOutside(m: Dedupe.Log, id: string)
    ensures Dedupe.Offered(m, 8, id) == Dedupe.Taken(m, id) <==> id !in Dedupe.Window(m, 8)
  {
    assert |Dedupe.Taken(m, id).ids| == |m.ids| + 1;
  }

  lemma LastEightAreOthers(m: Dedupe.Log, first: nat, id: string)
    requires Dedupe.Start(m) <= |m.ids| && |m.ids| > first + 8
    requires forall k :: first < k < |m.ids| ==> m.ids[k] != id
    ensures id !in Dedupe.Window(m, 8)
  {
    var window := Dedupe.Window(m, 8);
    assert forall k :: 0 <= k < |window| ==> window[k] == m.ids[|m.ids| - |window| + k];
  }

  /** The position in the ring of the k-th id ever stored. */
  function RingSlot(k: nat): (slot: nat)
    ensures slot < RECENT_CAPACITY
  {
    k % 8
  }

  lemma RingSlotsDiffer(j: nat, k: nat)
    requires j < k < j + RECENT_CAPACITY
    ensures RingSlot(j) != RingSlot(k)
  {
  }

  lemma RingSlotWraps(n: nat)
    ensures RingSlot(RingSlot(n)) == RingSlot(n) && RingSlot(RingSlot(n) + 1) == RingSlot(n + 1)
  {
  }

  class RecentCache {
    const relayIds: array<string>
    var nextIndex: nat
    var count: nat
    /** Every id stored so far, and when the ring was cleared. */
    ghost var log: Dedupe.Log

    ghost function History(): seq<string>
      reads this
    {
      Dedupe.Since(log)
    }

    ghost predicate Valid()
      reads this, relayIds
    {
      && relayIds.Length == RECENT_CAPACITY
      && Dedupe.Start(log) <= |log.ids|
      && count == |Last(History())|
      && nextIndex == RingSlot(|History()|)
      && forall k :: |History()| - count <= k < |History()| ==> relayIds[RingSlot(k)] == History()[k]
    }

    /** Only ids that were not in the ring were stored. */
    ghost predicate Screened()
      reads this
    {
      Dedupe.Separate(log, RECENT_CAPACITY)
    }

    constructor ()
      ensures Valid() && Screened() && fresh(relayIds) && log == Dedupe.EMPTY
    {
      relayIds := new string[RECENT_CAPACITY](_ => "");
      nextIndex, count, log := 0, 0, Dedupe.EMPTY;
      new;
      Dedupe.EmptyIsSeparate(RECENT_CAPACITY);
    }

    /** Initialising the ring again forgets what it holds. */
    method Clear()
      requires Valid()
      modifies this, relayIds
      ensures Valid() && log == Dedupe.Cleared(old(log)) && (old(Screened()) ==> Screened())
    {
      if Screened() {
        Dedupe.ClearingSeparates(log, RECENT_CAPACITY);
      }
      forall k | 0 <= k < relayIds.Length {
        relayIds[k] := "";
      }
      nextIndex, count, log := 0, 0, Dedupe.Cleared(log);
    }

    method Contains(id: string) returns (found: bool)
      requires Valid()
      ensures found <==> id in Last(History())
    {
      hide RingSlot;
      for index := 0 to count
        invariant forall j :: 0 <= j < index ==> relayIds[j] != id
      {
        if relayIds[index] == id {
          FirstSlotsAreTheRing(index);
          return true;
        }
      }
      if id in Last(History()) {
        var k :| 0 <= k < |Last(History())| && Last(History())[k] == id;
        assert relayIds[RingSlot(|History()| - count + k)] == id;
        SlotIsFilled(|History()|, |History()| - count + k);
        assert false;
      }
      return false;
    }

    /** The first count slots hold exactly the last ids. */
    lemma FirstSlotsAreTheRing(index: nat)
      requires Valid() && index < count
      ensures relayIds[index] in Last(History())
    {
      var k := SlotOwner(|History()|, index);
      assert Last(History())[k - (|History()| - count)] == History()[k];
    }

    method Store(id: string)
      requires Valid()
      modifies this, relayIds
      ensures Valid() && log == Dedupe.Taken(old(log), Clipped(id))
    {
      hide RingSlot, Clipped, Dedupe.Since, Dedupe.Start;
      Dedupe.TakingAppends(log, Clipped(id));
      ghost var n := |History()|;
      RingSlotWraps(n);
      var index := RingSlot(nextIndex);
      relayIds[index] := Clipped(id);
      nextIndex := RingSlot(index + 1);
      log := Dedupe.Taken(log, Clipped(id));
      assert History() == old(History()) + [Clipped(id)];
      if count < RECENT_CAPACITY {
        count := count + 1;
      }
      forall k | n + 1 - count <= k < n + 1
        ensures relayIds[RingSlot(k)] == History()[k]
      {
        if k < n {
          RingSlotsDiffer(k, n);
        }
      }
    }

    method Decide(n: Notification, c: Connectivity) returns (d: Decision)
      requires Valid()
      ensures d == Decided(n, c, Last(History()))
    {
      hide RelayId, Last, RecentCache.Valid, RecentCache.History;
      if n.appId == [] {
        return DropInvalid;
      }
      if n.eventId != 0 && n.eventId != 1 {
        return DropEvent;
      }
      if !n.complete {
        return DropIncomplete;
      }
      if n.flags & PRE_EXISTING != 0 {
        return DropPreExisting;
      }
      if !c.wifi || !c.mqtt {
        return DropOffline;
      }
      if n.appId == HA_APP_ID {
        return DropEcho;
      }
      var id := BuildId(n, c.bootNonce);
      var duplicate := Contains(id);
      return if duplicate then DropDuplicate else Publish;
    }

    /** The observer's second critical section; room is what the queue says. */
    method Observe(n: Notification, c: Connectivity, room: bool) returns (relayed: bool)
      requires Valid() && Screened()
      modifies this, relayIds
      ensures Valid() && Screened() && log == After(old(log), Observed(n, c, room))
      ensures relayed <==> Relays(old(log), Observed(n, c, room))
    {
      hide RelayId, RecentCache.Valid, Clipped, Dedupe.Separate;
      var d := Decide(n, c);
      relayed := d == Publish && room;
      if relayed {
        var id := BuildId(n, c.bootNonce);
        RelayIdFits(n, c.bootNonce);
        Dedupe.TakingSeparates(log, RECENT_CAPACITY, id);
        Store(id);
      }
    }
  }

  /** A slot of the ring has room for 32 characters. */
  function Clipped(id: string): string {
    if |id| > 32 then id[..32] else id
  }

  /** A relay id is stored whole. */
  lemma RelayIdFits(n: Notification, nonce: bv32)
    ensures Clipped(RelayId(n, nonce)) == RelayId(n, nonce)
  {
  }

  /** Which of the n ids stored so far is in a slot. */
  function SlotOwner(n: nat, slot: nat): (k: nat)
    requires slot < RECENT_CAPACITY && slot < n
    ensures k < n <= k + RECENT_CAPACITY && RingSlot(k) == slot
  {
    var k := n - 1 - (n - 1 - slot) % 8;
    k
  }

  /** The last ids of fewer than a full ring occupy its first slots. */
  lemma SlotIsFilled(n: nat, k: nat)
    requires k < n <= k + RECENT_CAPACITY
    ensures RingSlot(k) < n
  {
  }
}
