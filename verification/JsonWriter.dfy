/**
 * The bounded JSON writer of the serial sink, and a reader of JSON strings
 * (section 7 of RFC 8259). Text ends at its first zero byte; a byte that starts
 * no valid UTF-8 sequence is replaced by U+FFFD, which is what the reader then
 * finds in its place.
 */
module JsonWriter {
  import opened Bytes
  import opened Utf8
  import opened Wrappers

  const QUOTE: Byte := 34
  const BACKSLASH: Byte := 92

  /** A C string: no zero byte. */
  type Text = s: seq<Byte> | 0 !in s witness []

  function HexDigit(d: nat): Byte
    requires d < 16
  {
    if d < 10 then 48 + d else 55 + d
  }

  /** A control character without a short escape. */
  function UnicodeEscape(b: Byte): (s: seq<Byte>)
    ensures |s| == 6
  {
    [BACKSLASH, 117, 48, 48, HexDigit(b / 16), HexDigit(b % 16)]
  }

  const FFFD_ESCAPE: seq<Byte> := [92, 117, 70, 70, 70, 68]

  /** The short escape of a character, or 0. */
  function ShortEscape(b: Byte): Byte {
    if b == QUOTE then QUOTE
    else if b == BACKSLASH then BACKSLASH
    else if b == 8 then 98
    else if b == 12 then 102
    else if b == 10 then 110
    else if b == 13 then 114
    else if b == 9 then 116
    else 0
  }

  /** How many bytes the writer consumes at the front of a text. */
  function Consumed(s: seq<Byte>): (n: nat)
    requires s != []
    ensures 0 < n <= |s|
  {
    if ShortEscape(s[0]) != 0 || s[0] < 0x20 || Sequence(s) == 0 then 1 else Sequence(s)
  }

  /** What it writes for them. */
  function Piece(s: seq<Byte>): (r: seq<Byte>)
    requires s != []
    ensures |r| <= 6 * Consumed(s)
  {
    if ShortEscape(s[0]) != 0 then [BACKSLASH, ShortEscape(s[0])]
    else if s[0] < 0x20 then UnicodeEscape(s[0])
    else if Sequence(s) == 0 then FFFD_ESCAPE
    else s[..Sequence(s)]
  }

  function Escaped(s: seq<Byte>): (r: seq<Byte>)
    ensures |r| <= 6 * |s|
    decreases |s|
  {
    if s == [] then [] else Piece(s) + Escaped(s[Consumed(s)..])
  }

  /** A text as a JSON string. */
  function Quoted(s: seq<Byte>): (r: seq<Byte>)
    ensures 2 <= |r| <= 6 * |s| + 2
  {
    [QUOTE] + Escaped(s) + [QUOTE]
  }

  // ---------- A reader of JSON strings ----------

  function HexValue(b: Byte): (v: int)
    ensures -1 <= v < 16
  {
    if 48 <= b <= 57 then b - 48 else if 65 <= b <= 70 then b - 55 else if 97 <= b <= 102 then b - 87 else -1
  }

  function Unescape(b: Byte): Option<Byte> {
    if b == QUOTE then Some(QUOTE)
    else if b == BACKSLASH then Some(BACKSLASH)
    else if b == 47 then Some(47)
    else if b == 98 then Some(8)
    else if b == 102 then Some(12)
    else if b == 110 then Some(10)
    else if b == 114 then Some(13)
    else if b == 116 then Some(9)
    else None
  }

  /** The code unit of four hexadecimal digits, if it is not half of a surrogate pair. */
  function CodeUnit(s: seq<Byte>): (r: Option<nat>)
    requires |s| >= 4
    ensures r.Some? ==> Scalar(r.value)
  {
    var a, b, c, d := HexValue(s[0]), HexValue(s[1]), HexValue(s[2]), HexValue(s[3]);
    if a < 0 || b < 0 || c < 0 || d < 0 then None
    else
      var v := ((a * 16 + b) * 16 + c) * 16 + d;
      if Scalar(v) then Some(v) else None
  }

  /** The next character of a string's body: its UTF-8 bytes and how much text it takes. */
  function ReadChar(s: seq<Byte>): (r: Option<(seq<Byte>, nat)>)
    requires s != []
    ensures r.Some? ==> 0 < r.value.1 <= |s|
  {
    if s[0] == BACKSLASH then
      if |s| < 2 then None
      else if s[1] == 117 then
        if |s| < 6 || CodeUnit(s[2..6]).None? then None else Some((Encode(CodeUnit(s[2..6]).value), 6))
      else if Unescape(s[1]).Some? then Some(([Unescape(s[1]).value], 2))
      else None
    else if s[0] < 0x20 || s[0] == QUOTE || Sequence(s) == 0 then None
    else Some((s[..Sequence(s)], Sequence(s)))
  }

  /** The body of a string up to its closing quote, and what follows it. */
  function ReadBody(s: seq<Byte>): (r: Option<(seq<Byte>, seq<Byte>)>)
    ensures r.Some? ==> |r.value.1| < |s|
    decreases |s|
  {
    if s == [] then None
    else if s[0] == QUOTE then Some(([], s[1..]))
    else
      var next := ReadChar(s);
      if next.None? then None
      else
        var rest := ReadBody(s[next.value.1..]);
        if rest.None? then None else Some((next.value.0 + rest.value.0, rest.value.1))
  }

  function ReadString(s: seq<Byte>): (r: Option<(seq<Byte>, seq<Byte>)>)
    ensures r.Some? ==> |r.value.1| < |s|
  {
    if s == [] || s[0] != QUOTE then None else ReadBody(s[1..])
  }

  // ---------- Reading what was written ----------

  lemma SequenceAhead(s: seq<Byte>, tail: seq<Byte>)
    requires s != [] && Sequence(s) > 0
    ensures Sequence(s[..Sequence(s)] + tail) == Sequence(s)
  {
    SequenceIsChar(s);
    var c :| Scalar(c) && Encode(c) == s[..Sequence(s)];
    EncodingIsFound(c, tail);
  }

  lemma HexRoundTrip(b: Byte)
    requires b < 0x20
    ensures CodeUnit([48, 48, HexDigit(b / 16), HexDigit(b % 16)]) == Some(b as nat)
  {
  }

  /** One written piece is read as the bytes it stands for. */
  lemma PieceReads(s: seq<Byte>, tail: seq<Byte>)
    requires s != [] && 0 !in s
    ensures var text := Piece(s) + tail;
            && text[0] != QUOTE
            && ReadChar(text) == Some((if Sequence(s) == 0 then REPLACEMENT else s[..Consumed(s)], |Piece(s)|))
  {
    hide Encode, CodeUnit;
    var text := Piece(s) + tail;
    if ShortEscape(s[0]) != 0 {
      assert text[0] == BACKSLASH && text[1] == ShortEscape(s[0]);
      assert Unescape(ShortEscape(s[0])) == Some(s[0]);
      assert s[..1] == [s[0]];
    } else if s[0] < 0x20 {
      assert text[2..6] == [48, 48, HexDigit(s[0] / 16), HexDigit(s[0] % 16)];
      HexRoundTrip(s[0]);
      EncodesItself(s[0]);
      assert s[..1] == [s[0]];
    } else if Sequence(s) == 0 {
      assert text[2..6] == [70, 70, 70, 68];
      ReplacementReads();
    } else {
      SequenceAhead(s, tail);
      assert text[..Sequence(s)] == s[..Sequence(s)];
    }
  }

  lemma EncodesItself(b: Byte)
    requires b < 0x80
    ensures Encode(b) == [b]
  {
  }

  lemma ReplacementReads()
    ensures CodeUnit([70, 70, 70, 68]) == Some(0xFFFD) && Encode(0xFFFD) == REPLACEMENT
  {
  }

  lemma {:induction false} BodyReads(s: seq<Byte>, tail: seq<Byte>)
    requires 0 !in s
    ensures ReadBody(Escaped(s) + [QUOTE] + tail) == Some((Sanitized(s), tail))
    decreases |s|
  {
    hide Piece, Consumed, ReadChar, Sequence;
    if s == [] {
      assert Escaped(s) + [QUOTE] + tail == [QUOTE] + tail;
    } else {
      var n := Consumed(s);
      var rest := Escaped(s[n..]) + [QUOTE] + tail;
      assert Escaped(s) + [QUOTE] + tail == Piece(s) + rest;
      PieceReads(s, rest);
      assert forall b <- s[n..] :: b in s;
      BodyReads(s[n..], tail);
      assert (Piece(s) + rest)[|Piece(s)|..] == rest;
      SanitizedByPieces(s);
    }
  }

  lemma SanitizedByPieces(s: seq<Byte>)
    requires s != []
    ensures Sanitized(s) == (if Sequence(s) == 0 then REPLACEMENT else s[..Consumed(s)]) + Sanitized(s[Consumed(s)..])
  {
  }

  /**
   * A JSON reader gets back the text, with each byte that starts no valid
   * sequence replaced, and then whatever follows the string.
   */
  lemma QuotedReads(s: Text, tail: seq<Byte>)
    ensures ReadString(Quoted(s) + tail) == Some((Sanitized(s), tail))
  {
    hide Escaped, ReadBody, Sanitized;
    BodyReads(s, tail);
    assert (Quoted(s) + tail)[1..] == Escaped(s) + [QUOTE] + tail;
  }

  /** Valid UTF-8 survives unchanged, and nothing else does. */
  lemma ReadsBackIffValid(s: Text, tail: seq<Byte>)
    ensures ReadString(Quoted(s) + tail) == Some((s, tail)) <==> Valid(s)
  {
    hide Sanitized, Quoted, ReadString, Valid;
    QuotedReads(s, tail);
    SanitizedIffValid(s);
  }

  // ---------- The writer ----------

  class Writer {
    const buffer: array<Byte>
    var length: nat
    var failed: bool
    /** Everything written so far, whether it fitted or not. */
    ghost var written: seq<Byte>

    /** The writer has failed exactly if what was written and a terminating zero do not fit. */
    ghost predicate Valid()
      reads this, buffer
    {
      && (failed <==> |written| >= buffer.Length)
      && (!failed ==> length == |written| && buffer[..length] == written)
      && length < buffer.Length
    }

    constructor (capacity: nat)
      requires capacity > 0
      ensures Valid() && fresh(buffer) && buffer.Length == capacity && written == []
    {
      buffer := new Byte[capacity](_ => 0);
      length, failed, written := 0, false, [];
    }

    /** Appends bytes and a terminating zero, or fails without room for both. */
    method Append(bytes: seq<Byte>)
      requires Valid()
      modifies this, buffer
      ensures Valid() && written == old(written) + bytes
    {
      ghost var before := written;
      written := written + bytes;
      if failed {
        return;
      }
      if |bytes| >= buffer.Length - length {
        failed := true;
        return;
      }
      for i := 0 to |bytes|
        invariant !failed && length == |before| && written == before + bytes
        invariant buffer[..length + i] == before + bytes[..i]
      {
        buffer[length + i] := bytes[i];
      }
      length := length + |bytes|;
      buffer[length] := 0;
      assert buffer[..length] == before + bytes;
    }

    method WriteString(text: Text)
      requires Valid()
      modifies this, buffer
      ensures Valid() && written == old(written) + Quoted(text)
    {
      hide Piece, Consumed;
      ghost var goal := written + Quoted(text);
      Append([QUOTE]);
      var index := 0;
      assert text[0..] == text;
      while index < |text| && !failed
        invariant Valid() && index <= |text|
        invariant written + Escaped(text[index..]) + [QUOTE] == goal
      {
        ghost var before := written;
        var rest := text[index..];
        var n := WritePiece(rest);
        assert rest[n..] == text[index + n..];
        assert before + Escaped(rest) + [QUOTE] == written + Escaped(text[index + n..]) + [QUOTE];
        index := index + n;
      }
      if failed {
        written := goal;
        return;
      }
      Append([QUOTE]);
    }

    /** Writes the next character or escape of a text. */
    method WritePiece(rest: seq<Byte>) returns (n: nat)
      requires Valid() && rest != []
      modifies this, buffer
      ensures Valid() && n == Consumed(rest) && written == old(written) + Piece(rest)
    {
      var byte := rest[0];
      if ShortEscape(byte) != 0 {
        Append([BACKSLASH, ShortEscape(byte)]);
        return 1;
      }
      if byte < 0x20 {
        Append(UnicodeEscape(byte));
        return 1;
      }
      n := Sequence(rest);
      if n == 0 {
        Append(FFFD_ESCAPE);
        return 1;
      }
      Append(rest[..n]);
    }
  }
}
