/**
 * Valid UTF-8 (RFC 3629) as the encodings of scalar values, the source's
 * byte test for one sequence, and the replacement of bytes that start none.
 */
module Utf8 {
  import opened Bytes

  predicate Scalar(c: nat) {
    c < 0xD800 || 0xE000 <= c < 0x110000
  }

  /** The encoding of a scalar value, section 3 of RFC 3629. */
  function Encode(c: nat): (s: seq<Byte>)
    requires Scalar(c)
    ensures 1 <= |s| <= 4
  {
    if c < 0x80 then [c]
    else if c < 0x800 then [0xC0 + c / 64, 0x80 + c % 64]
    else if c < 0x10000 then [0xE0 + c / 4096, 0x80 + (c / 64) % 64, 0x80 + c % 64]
    else [0xF0 + c / 262144, 0x80 + (c / 4096) % 64, 0x80 + (c / 64) % 64, 0x80 + c % 64]
  }

  /** A byte string that encodes one scalar value. */
  ghost predicate IsChar(s: seq<Byte>) {
    exists c :: Scalar(c) && Encode(c) == s
  }

  predicate Continuation(b: Byte) {
    0x80 <= b < 0xC0
  }

  /** The length of the valid sequence at the front of the bytes, or 0: the source's test, branch by branch. */
  function Sequence(s: seq<Byte>): (n: nat)
    requires s != []
    ensures n <= |s| && n <= 4
  {
    var first := s[0];
    if first < 0x80 then 1
    else if 0xC2 <= first <= 0xDF && |s| >= 2 && Continuation(s[1]) then 2
    else if |s| >= 3 && Continuation(s[1]) && Continuation(s[2])
            && ((first == 0xE0 && 0xA0 <= s[1] <= 0xBF) || 0xE1 <= first <= 0xEC || 0xEE <= first <= 0xEF
                || (first == 0xED && 0x80 <= s[1] <= 0x9F)) then 3
    else if |s| >= 4 && Continuation(s[1]) && Continuation(s[2]) && Continuation(s[3])
            && ((first == 0xF0 && 0x90 <= s[1] <= 0xBF) || 0xF1 <= first <= 0xF3
                || (first == 0xF4 && 0x80 <= s[1] <= 0x8F)) then 4
    else 0
  }

  /** The scalar value of a valid sequence. */
  function Value(s: seq<Byte>): nat
    requires s != [] && Sequence(s) > 0
  {
    match Sequence(s)
    case 1 => s[0]
    case 2 => ((s[0] as int) - 0xC0) * 64 + ((s[1] as int) - 0x80)
    case 3 => ((s[0] as int) - 0xE0) * 4096 + ((s[1] as int) - 0x80) * 64 + ((s[2] as int) - 0x80)
    case _ =>
      ((s[0] as int) - 0xF0) * 262144 + ((s[1] as int) - 0x80) * 4096 + ((s[2] as int) - 0x80) * 64 + ((s[3] as int) - 0x80)
  }

  lemma Digits(w: nat, x: nat, y: nat, z: nat)
    requires x < 64 && y < 64 && z < 64
    ensures var c := w * 262144 + x * 4096 + y * 64 + z;
            c / 262144 == w && (c / 4096) % 64 == x && (c / 64) % 64 == y && c % 64 == z && c / 4096 == w * 64 + x
  {
  }

  /** What the test accepts encodes a scalar value. */
  lemma SequenceIsChar(s: seq<Byte>)
    requires s != [] && Sequence(s) > 0
    ensures IsChar(s[..Sequence(s)])
  {
    var n, c := Sequence(s), Value(s);
    if n == 1 {
      assert Encode(c) == s[..1];
    } else if n == 2 {
      TwoByteChar(s);
    } else if n == 3 {
      ThreeByteChar(s);
    } else {
      FourByteChar(s);
    }
  }

  lemma TwoByteChar(s: seq<Byte>)
    requires s != [] && Sequence(s) == 2
    ensures Scalar(Value(s)) && Encode(Value(s)) == s[..2]
  {
    var c := Value(s);
    assert c / 64 == (s[0] as int) - 0xC0 && c % 64 == (s[1] as int) - 0x80;
    assert 0x80 <= c < 0x800;
  }

  lemma ThreeByteChar(s: seq<Byte>)
    requires s != [] && Sequence(s) == 3
    ensures Scalar(Value(s)) && Encode(Value(s)) == s[..3]
  {
    var c, x, y, z := Value(s), (s[0] as int) - 0xE0, (s[1] as int) - 0x80, (s[2] as int) - 0x80;
    Digits(0, x, y, z);
    assert 0x800 <= c < 0x10000 && (c < 0xD800 || c >= 0xE000);
  }

  lemma FourByteChar(s: seq<Byte>)
    requires s != [] && Sequence(s) == 4
    ensures Scalar(Value(s)) && Encode(Value(s)) == s[..4]
  {
    var c, w, x, y, z := Value(s), (s[0] as int) - 0xF0, (s[1] as int) - 0x80, (s[2] as int) - 0x80, (s[3] as int) - 0x80;
    Digits(w, x, y, z);
    assert 0x10000 <= c < 0x110000;
  }

  /** The test finds the encoding of a scalar value at the front of any bytes. */
  lemma EncodingIsFound(c: nat, rest: seq<Byte>)
    requires Scalar(c)
    ensures Sequence(Encode(c) + rest) == |Encode(c)|
  {
    var e := Encode(c);
    var s := e + rest;
    assert forall i :: 0 <= i < |e| ==> s[i] == e[i];
    if c < 0x80 {
    } else if c < 0x800 {
      assert 2 <= c / 64 < 32;
    } else if c < 0x10000 {
      assert c / 4096 == 0 ==> (c / 64) % 64 >= 32;
      assert c / 4096 == 13 ==> (c / 64) % 64 < 32;
    } else {
      assert c / 262144 == 0 ==> (c / 4096) % 64 >= 16;
      assert c / 262144 <= 4 && (c / 262144 == 4 ==> (c / 4096) % 64 < 16);
    }
  }

  /** The source's test is exact: it answers n > 0 iff the first n bytes encode a scalar value, and 0 iff no prefix does. */
  lemma SequenceIsExact(s: seq<Byte>)
    requires s != []
    ensures Sequence(s) > 0 ==> IsChar(s[..Sequence(s)])
    ensures forall n :: 0 < n <= |s| && IsChar(s[..n]) ==> Sequence(s) == n
  {
    if Sequence(s) > 0 {
      SequenceIsChar(s);
    }
    forall n | 0 < n <= |s| && IsChar(s[..n])
      ensures Sequence(s) == n
    {
      var c :| Scalar(c) && Encode(c) == s[..n];
      assert s == Encode(c) + s[n..];
      EncodingIsFound(c, s[n..]);
    }
  }

  /** Encodings one after the other. */
  ghost function EncodeAll(codes: seq<nat>): seq<Byte>
    requires forall c <- codes :: Scalar(c)
  {
    if codes == [] then [] else Encode(codes[0]) + EncodeAll(codes[1..])
  }

  ghost predicate Valid(s: seq<Byte>) {
    exists codes: seq<nat> :: (forall c <- codes :: Scalar(c)) && EncodeAll(codes) == s
  }

  const REPLACEMENT: seq<Byte> := [0xEF, 0xBF, 0xBD]

  /** Each byte that starts no valid sequence replaced by U+FFFD. */
  function Sanitized(s: seq<Byte>): seq<Byte>
    decreases |s|
  {
    if s == [] then []
    else if Sequence(s) == 0 then REPLACEMENT + Sanitized(s[1..])
    else s[..Sequence(s)] + Sanitized(s[Sequence(s)..])
  }

  lemma PrependChar(c: nat, s: seq<Byte>)
    requires Scalar(c) && Valid(s)
    ensures Valid(Encode(c) + s)
  {
    var codes: seq<nat> :| (forall d <- codes :: Scalar(d)) && EncodeAll(codes) == s;
    var all := [c] + codes;
    assert all[1..] == codes;
    assert EncodeAll(all) == Encode(c) + s;
  }

  lemma {:induction false} SanitizedIsValid(s: seq<Byte>)
    ensures Valid(Sanitized(s))
    decreases |s|
  {
    if s == [] {
      assert EncodeAll([]) == [];
    } else if Sequence(s) == 0 {
      SanitizedIsValid(s[1..]);
      assert Encode(0xFFFD) == REPLACEMENT;
      PrependChar(0xFFFD, Sanitized(s[1..]));
    } else {
      SequenceIsChar(s);
      var c :| Scalar(c) && Encode(c) == s[..Sequence(s)];
      SanitizedIsValid(s[Sequence(s)..]);
      PrependChar(c, Sanitized(s[Sequence(s)..]));
    }
  }

  lemma {:induction false} ValidIsKept(codes: seq<nat>)
    requires forall c <- codes :: Scalar(c)
    ensures Sanitized(EncodeAll(codes)) == EncodeAll(codes)
  {
    hide Encode, Sequence;
    if codes != [] {
      assert codes[0] in codes && forall c <- codes[1..] :: c in codes;
      var s, rest := EncodeAll(codes), EncodeAll(codes[1..]);
      EncodingIsFound(codes[0], rest);
      var n := |Encode(codes[0])|;
      assert s[..n] == Encode(codes[0]) && s[n..] == rest;
      ValidIsKept(codes[1..]);
    }
  }

  /** Replacement changes nothing exactly on valid UTF-8. */
  lemma SanitizedIffValid(s: seq<Byte>)
    ensures Sanitized(s) == s <==> Valid(s)
  {
    hide Sanitized;
    SanitizedIsValid(s);
    if Valid(s) {
      var codes: seq<nat> :| (forall c <- codes :: Scalar(c)) && EncodeAll(codes) == s;
      ValidIsKept(codes);
    }
  }
}
