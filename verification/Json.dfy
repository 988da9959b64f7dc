/**
 * JSON values as far as the sink writes them, and a reader for them (RFC 8259).
 *
 * The printer adds no white space and keeps the members of an object in order,
 * so the reader can be exact: it gives back the value and what follows it. Text
 * comes back cleaned, that is, with each byte that starts no valid UTF-8
 * sequence replaced.
 */
module Json {
  import opened Bytes
  import opened JsonWriter
  import opened Utf8
  import opened Wrappers

  datatype Value =
    | Null
    | Boolean(truth: bool)
    | Number(number: int)
    | String(text: seq<Byte>)
    | Object(members: seq<Member>)

  datatype Member = Member(key: seq<Byte>, value: Value)

  const COMMA: Byte := 44
  const MINUS: Byte := 45
  const ZERO: Byte := 48
  const COLON: Byte := 58
  const OPEN: Byte := 123
  const CLOSE: Byte := 125

  const NULL: seq<Byte> := [110, 117, 108, 108]
  const TRUE: seq<Byte> := [116, 114, 117, 101]
  const FALSE: seq<Byte> := [102, 97, 108, 115, 101]

  // ---------- Printing ----------

  function Decimal(n: nat): seq<Byte> {
    if n < 10 then [ZERO + n] else Decimal(n / 10) + [ZERO + n % 10]
  }

  function SignedDecimal(i: int): seq<Byte> {
    if i < 0 then [MINUS] + Decimal(-i) else Decimal(i)
  }

  function Printed(v: Value): seq<Byte>
    decreases v, 0
  {
    match v
    case Null => NULL
    case Boolean(truth) => if truth then TRUE else FALSE
    case Number(number) => SignedDecimal(number)
    case String(text) => Quoted(text)
    case Object(members) =>
      [OPEN] + (if members == [] then [] else Pair(members[0]) + Tail(members[1..])) + [CLOSE]
  }

  function Pair(m: Member): seq<Byte>
    decreases m, 1
  {
    Quoted(m.key) + [COLON] + Printed(m.value)
  }

  /** Every further member comes after a comma. */
  function Tail(members: seq<Member>): seq<Byte>
    decreases members, 2
  {
    if members == [] then [] else [COMMA] + Pair(members[0]) + Tail(members[1..])
  }

  lemma {:induction false} TailAppend(a: seq<Member>, b: seq<Member>)
    ensures Tail(a + b) == Tail(a) + Tail(b)
    decreases |a|
  {
    hide Pair;
    if a == [] {
      assert a + b == b;
    } else {
      assert (a + b)[1..] == a[1..] + b;
      TailAppend(a[1..], b);
    }
  }

  // ---------- Reading ----------

  predicate Digit(b: Byte) {
    ZERO <= b <= ZERO + 9
  }

  /** The digits in front continue a number. */
  function ReadDigits(s: seq<Byte>, number: nat): (r: (nat, seq<Byte>))
    ensures |r.1| <= |s|
  {
    if s == [] || !Digit(s[0]) then (number, s) else ReadDigits(s[1..], number * 10 + (s[0] - ZERO))
  }

  /** A number has no leading zero. */
  function ReadNatural(s: seq<Byte>): (r: Option<(nat, seq<Byte>)>)
    ensures r.Some? ==> |r.value.1| < |s|
  {
    if s == [] || !Digit(s[0]) then None
    else if s[0] == ZERO then Some((0, s[1..]))
    else Some(ReadDigits(s[1..], s[0] - ZERO))
  }

  function ReadNumber(s: seq<Byte>): (r: Option<(int, seq<Byte>)>)
    ensures r.Some? ==> |r.value.1| < |s|
  {
    var negative := s != [] && s[0] == MINUS;
    var natural := ReadNatural(if negative then s[1..] else s);
    if natural.None? then None
    else
      var number: int := natural.value.0;
      Some((if negative then -number else number, natural.value.1))
  }

  /** The value in front of a text, and what follows it. */
  function ReadValue(s: seq<Byte>): (r: Option<(Value, seq<Byte>)>)
    ensures r.Some? ==> |r.value.1| < |s|
    decreases |s|, 1
  {
    if NULL <= s then Some((Null, s[|NULL|..]))
    else if TRUE <= s then Some((Boolean(true), s[|TRUE|..]))
    else if FALSE <= s then Some((Boolean(false), s[|FALSE|..]))
    else if s != [] && s[0] == QUOTE then
      var text := ReadString(s);
      if text.None? then None else Some((String(text.value.0), text.value.1))
    else if s != [] && s[0] == OPEN then ReadObject(s)
    else
      var number := ReadNumber(s);
      if number.None? then None else Some((Number(number.value.0), number.value.1))
  }

  function ReadObject(s: seq<Byte>): (r: Option<(Value, seq<Byte>)>)
    requires s != [] && s[0] == OPEN
    ensures r.Some? ==> |r.value.1| < |s|
    decreases |s|, 0
  {
    if |s| >= 2 && s[1] == CLOSE then Some((Object([]), s[2..]))
    else
      var first := ReadMember(s[1..]);
      if first.None? then None
      else
        var rest := ReadMembers(first.value.1);
        if rest.None? then None else Some((Object([first.value.0] + rest.value.0), rest.value.1))
  }

  function ReadMember(s: seq<Byte>): (r: Option<(Member, seq<Byte>)>)
    ensures r.Some? ==> |r.value.1| < |s|
    decreases |s|, 2
  {
    var key := ReadString(s);
    if key.None? || key.value.1 == [] || key.value.1[0] != COLON then None
    else
      var value := ReadValue(key.value.1[1..]);
      if value.None? then None else Some((Member(key.value.0, value.value.0), value.value.1))
  }

  /** Members after commas, up to the end of the object. */
  function ReadMembers(s: seq<Byte>): (r: Option<(seq<Member>, seq<Byte>)>)
    ensures r.Some? ==> |r.value.1| < |s|
    decreases |s|, 3
  {
    if s == [] then None
    else if s[0] == CLOSE then Some(([], s[1..]))
    else if s[0] != COMMA then None
    else
      var first := ReadMember(s[1..]);
      if first.None? then None
      else
        var rest := ReadMembers(first.value.1);
        if rest.None? then None else Some(([first.value.0] + rest.value.0, rest.value.1))
  }

  // ---------- Reading what was printed ----------

  /** The value with every byte replaced that starts no valid UTF-8 sequence. */
  function Cleaned(v: Value): Value
    decreases v, 0
  {
    match v
    case String(text) => String(Sanitized(text))
    case Object(members) => Object(AllCleaned(members))
    case _ => v
  }

  function CleanedMember(m: Member): Member
    decreases m, 1
  {
    Member(Sanitized(m.key), Cleaned(m.value))
  }

  function AllCleaned(members: seq<Member>): (r: seq<Member>)
    ensures |r| == |members|
    decreases members, 2
  {
    if members == [] then [] else [CleanedMember(members[0])] + AllCleaned(members[1..])
  }

  /** No text holds a zero, as the texts of C strings do not. */
  predicate ZeroFree(v: Value)
    decreases v, 0
  {
    match v
    case String(text) => 0 !in text
    case Object(members) => AllZeroFree(members)
    case _ => true
  }

  predicate MemberZeroFree(m: Member)
    decreases m, 1
  {
    0 !in m.key && ZeroFree(m.value)
  }

  predicate AllZeroFree(members: seq<Member>)
    decreases members, 2
  {
    members == [] || (MemberZeroFree(members[0]) && AllZeroFree(members[1..]))
  }

  /** What follows a value does not go on with digits. */
  predicate Apart(tail: seq<Byte>) {
    tail == [] || !Digit(tail[0])
  }

  lemma {:induction false} DigitsRead(n: nat, tail: seq<Byte>)
    ensures ReadDigits(Decimal(n) + tail, 0) == ReadDigits(tail, n)
    ensures Digit(Decimal(n)[0]) && (Decimal(n)[0] == ZERO ==> n == 0 && Decimal(n) == [ZERO])
    decreases n
  {
    var last := [ZERO + n % 10];
    assert (last + tail)[1..] == tail;
    if n >= 10 {
      assert Decimal(n) + tail == Decimal(n / 10) + (last + tail);
      DigitsRead(n / 10, last + tail);
    } else {
      assert Decimal(n) == last;
    }
  }

  lemma NaturalReads(n: nat, tail: seq<Byte>)
    requires Apart(tail)
    ensures ReadNatural(Decimal(n) + tail) == Some((n, tail))
    ensures Digit((Decimal(n) + tail)[0])
  {
    DigitsRead(n, tail);
    var s := Decimal(n) + tail;
    assert s[0] == Decimal(n)[0];
    if s[0] == ZERO {
      assert s[1..] == tail;
    } else {
      assert ReadDigits(s, 0) == ReadDigits(s[1..], s[0] - ZERO);
    }
  }

  lemma NumberReads(i: int, tail: seq<Byte>)
    requires Apart(tail)
    ensures ReadNumber(SignedDecimal(i) + tail) == Some((i, tail))
    ensures var b := (SignedDecimal(i) + tail)[0]; Digit(b) || b == MINUS
  {
    NaturalReads(if i < 0 then -i else i, tail);
    if i < 0 {
      assert (SignedDecimal(i) + tail)[1..] == Decimal(-i) + tail;
    }
  }

  /** What a printed value begins with. */
  lemma PrintedBegins(v: Value, tail: seq<Byte>)
    requires Apart(tail)
    ensures var s := Printed(v) + tail;
            && s != []
            && (v.Number? ==> Digit(s[0]) || s[0] == MINUS)
            && (v.String? ==> s[0] == QUOTE)
            && (v.Object? ==> s[0] == OPEN)
  {
    hide SignedDecimal, Quoted, Tail;
    match v
    case Number(number) => NumberReads(number, tail);
    case String(text) => QuotedBegins(text);
    case _ =>
  }

  lemma QuotedBegins(s: seq<Byte>)
    ensures Quoted(s)[0] == QUOTE
  {
  }

  /** Reading gives back every printed value, cleaned, and what follows it. */
  lemma {:induction false} PrintedReads(v: Value, tail: seq<Byte>)
    requires ZeroFree(v) && Apart(tail)
    ensures ReadValue(Printed(v) + tail) == Some((Cleaned(v), tail))
    decreases v, 0
  {
    hide SignedDecimal, Quoted, Tail, ReadString, ReadNumber, ReadMembers, ReadMember, Sanitized;
    var s := Printed(v) + tail;
    PrintedBegins(v, tail);
    match v
    case Null => assert s[..|NULL|] == NULL && s[|NULL|..] == tail;
    case Boolean(truth) =>
      var word := if truth then TRUE else FALSE;
      assert s[0] == word[0] && s[|word|..] == tail;
      assert s[..|word|] == word;
    case Number(number) => NumberReads(number, tail);
    case String(text) => QuotedReads(text, tail);
    case Object(members) => ObjectReads(members, tail);
  }

  lemma {:induction false} ObjectReads(members: seq<Member>, tail: seq<Byte>)
    requires AllZeroFree(members)
    ensures ReadObject(Printed(Object(members)) + tail) == Some((Object(AllCleaned(members)), tail))
    decreases members, 3
  {
    hide Pair, Tail, ReadMember, ReadMembers, CleanedMember, MemberZeroFree;
    var s := Printed(Object(members)) + tail;
    if members == [] {
      assert s == [OPEN, CLOSE] + tail;
    } else {
      var rest := Tail(members[1..]) + [CLOSE] + tail;
      assert s[1..] == Pair(members[0]) + rest;
      TailIsApart(members[1..], tail);
      MemberReads(members[0], rest);
      PairBegins(members[0]);
      TailReads(members[1..], tail);
    }
  }

  lemma PairBegins(m: Member)
    ensures |Pair(m)| > 0 && Pair(m)[0] == QUOTE
  {
    QuotedBegins(m.key);
  }

  lemma TailIsApart(members: seq<Member>, tail: seq<Byte>)
    ensures Apart(Tail(members) + [CLOSE] + tail) && (Tail(members) + [CLOSE] + tail) != []
  {
    hide Pair;
  }

  lemma {:induction false} MemberReads(m: Member, tail: seq<Byte>)
    requires MemberZeroFree(m) && Apart(tail)
    ensures ReadMember(Pair(m) + tail) == Some((CleanedMember(m), tail))
    decreases m, 1
  {
    hide Quoted, Printed, ReadString, ReadValue, Cleaned, ZeroFree;
    var rest := [COLON] + (Printed(m.value) + tail);
    assert Pair(m) + tail == Quoted(m.key) + rest;
    QuotedReads(m.key, rest);
    assert rest[1..] == Printed(m.value) + tail;
    PrintedReads(m.value, tail);
  }

  lemma {:induction false} TailReads(members: seq<Member>, tail: seq<Byte>)
    requires AllZeroFree(members)
    ensures ReadMembers(Tail(members) + [CLOSE] + tail) == Some((AllCleaned(members), tail))
    decreases members, 2
  {
    hide Pair, ReadMember, CleanedMember, MemberZeroFree;
    var s := Tail(members) + [CLOSE] + tail;
    if members == [] {
      assert s == [CLOSE] + tail;
    } else {
      var rest := Tail(members[1..]) + [CLOSE] + tail;
      assert s == [COMMA] + (Pair(members[0]) + rest);
      assert s[1..] == Pair(members[0]) + rest;
      TailIsApart(members[1..], tail);
      MemberReads(members[0], rest);
      TailReads(members[1..], tail);
    }
  }

  // ---------- Values that need no cleaning ----------

  /** Every text is valid UTF-8. */
  ghost predicate WellEncoded(v: Value)
    decreases v, 0
  {
    match v
    case String(text) => Utf8.Valid(text)
    case Object(members) => AllWellEncoded(members)
    case _ => true
  }

  ghost predicate MemberWellEncoded(m: Member)
    decreases m, 1
  {
    Utf8.Valid(m.key) && WellEncoded(m.value)
  }

  ghost predicate AllWellEncoded(members: seq<Member>)
    decreases members, 2
  {
    members == [] || (MemberWellEncoded(members[0]) && AllWellEncoded(members[1..]))
  }

  /** Cleaning changes nothing exactly on valid UTF-8. */
  lemma {:induction false} CleanedIffWellEncoded(v: Value)
    ensures Cleaned(v) == v <==> WellEncoded(v)
    decreases v, 0
  {
    hide Sanitized, Utf8.Valid;
    match v
    case String(text) => SanitizedIffValid(text);
    case Object(members) => AllCleanedIffWellEncoded(members);
    case _ =>
  }

  lemma {:induction false} AllCleanedIffWellEncoded(members: seq<Member>)
    ensures AllCleaned(members) == members <==> AllWellEncoded(members)
    decreases members, 2
  {
    hide Sanitized, Utf8.Valid, Cleaned, WellEncoded;
    if members != [] {
      var first, rest := members[0], members[1..];
      SanitizedIffValid(first.key);
      CleanedIffWellEncoded(first.value);
      AllCleanedIffWellEncoded(rest);
      assert members == [first] + rest;
      assert AllCleaned(members)[0] == CleanedMember(first) && AllCleaned(members)[1..] == AllCleaned(rest);
    }
  }
}
