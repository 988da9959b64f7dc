/**
 * The checksum of a stored configuration: the source's bit-by-bit loop, the
 * table-driven code of section 8 of RFC 1952, and what the checksum detects.
 */
module Crc32 {

  function Xor(a: bv32, b: bv32): bv32 { a ^ b }

  function Complement(c: bv32): bv32 { !c }

  function LowByte(c: bv32): bv32 { c & 0xff }

  function HighBytes(c: bv32): bv32 { c & 0xffff_ff00 }

  function Shr8(c: bv32): bv32 { c >> 8 }

  function Shl8(c: bv32): bv32 { c << 8 }

  function Wide(b: bv8): bv32 { b as bv32 }

  /** One bit: shift right, and fold in the polynomial if a one fell out. */
  function BitStep(c: bv32): bv32 {
    if c & 1 == 1 then 0xEDB8_8320 ^ (c >> 1) else c >> 1
  }

  function BitSteps(c: bv32): bv32 {
    BitStep(BitStep(BitStep(BitStep(BitStep(BitStep(BitStep(BitStep(c))))))))
  }

  function ByteStep(c: bv32, b: bv8): bv32 {
    BitSteps(Xor(c, Wide(b)))
  }

  /** The register after a byte string. */
  function State(c: bv32, data: seq<bv8>): bv32
    decreases |data|
  {
    if data == [] then c else State(ByteStep(c, data[0]), data[1..])
  }

  /** The checksum continued from crc; it starts at 0. */
  function Crc(crc: bv32, data: seq<bv8>): bv32 {
    Complement(State(Complement(crc), data))
  }

  // ---------- The source's loop ----------

  lemma LowBit(c: bv32)
    ensures c & 1 == 0 || c & 1 == 1
  {
  }

  lemma MaskOne(c: bv32)
    ensures c ^ (0xEDB8_8320 & (0 - 1)) == 0xEDB8_8320 ^ c
  {
  }

  lemma MaskZero(c: bv32)
    ensures c ^ (0xEDB8_8320 & (0 - 0)) == c
  {
  }

  /** The source selects the polynomial by a mask instead of a branch. */
  method MaskedBitStep(c: bv32) returns (r: bv32)
    ensures r == BitStep(c)
  {
    LowBit(c);
    if c & 1 == 1 {
      MaskOne(c >> 1);
    } else {
      MaskZero(c >> 1);
    }
    var mask := 0 - (c & 1);
    r := (c >> 1) ^ (0xEDB8_8320 & mask);
  }

  function Bits(c: bv32, n: nat): bv32
    decreases n
  {
    if n == 0 then c else Bits(BitStep(c), n - 1)
  }

  lemma EightBits(c: bv32)
    ensures Bits(c, 8) == BitSteps(c)
  {
    hide BitStep;
    var c2 := BitStep(BitStep(c));
    var c4 := BitStep(BitStep(c2));
    var c6 := BitStep(BitStep(c4));
    assert Bits(c, 8) == Bits(BitStep(c), 7) == Bits(c2, 6);
    assert Bits(c2, 6) == Bits(BitStep(c2), 5) == Bits(c4, 4);
    assert Bits(c4, 4) == Bits(BitStep(c4), 3) == Bits(c6, 2);
    assert Bits(c6, 2) == Bits(BitStep(c6), 1) == Bits(BitStep(BitStep(c6)), 0);
  }

  method Update(crc: bv32, data: seq<bv8>) returns (r: bv32)
    ensures r == Crc(crc, data)
  {
    hide Xor, Complement, Wide, BitStep;
    r := Complement(crc);
    for i := 0 to |data|
      invariant State(r, data[i..]) == State(Complement(crc), data)
    {
      assert data[i..][1..] == data[i + 1..];
      ghost var next := ByteStep(r, data[i]);
      r := Xor(r, Wide(data[i]));
      EightBits(r);
      var bit := 0;
      while bit < 8
        invariant 0 <= bit <= 8
        invariant Bits(r, 8 - bit) == next
      {
        r := MaskedBitStep(r);
        bit := bit + 1;
      }
    }
    assert data[|data|..] == [];
    r := Complement(r);
  }

  // ---------- The check value ----------

  /** One byte folded in, bit by bit. */
  lemma ByteIs(c: bv32, b: bv8, d0: bv32, d1: bv32, d2: bv32, d3: bv32, d4: bv32, d5: bv32, d6: bv32, d7: bv32, d8: bv32)
    requires d0 == c ^ (b as bv32) && BitStep(d0) == d1 && BitStep(d1) == d2 && BitStep(d2) == d3 && BitStep(d3) == d4
    requires BitStep(d4) == d5 && BitStep(d5) == d6 && BitStep(d6) == d7 && BitStep(d7) == d8
    ensures ByteStep(c, b) == d8
  {
    hide BitStep;
  }

  lemma StateStep(c: bv32, b: bv8, rest: seq<bv8>)
    ensures State(c, [b] + rest) == State(ByteStep(c, b), rest)
  {
    hide ByteStep;
    assert ([b] + rest)[1..] == rest;
  }

  /** The checksum of "123456789" is the check value of this CRC. */
  lemma CheckValue()
    ensures Crc(0, [0x31] + ([0x32] + ([0x33] + ([0x34] + ([0x35] + ([0x36] + ([0x37] + ([0x38] + [0x39])))))))) == 0xCBF4_3926
  {
    ByteIs(0xffffffff, 0x31, 0xffffffce, 0x7fffffe7, 0xd2477cd3, 0x849b3d49, 0xaff51d84,
           0x57fa8ec2, 0x2bfd4761, 0xf8462090, 0x7c231048);
    ByteIs(0x7c231048, 0x32, 0x7c23107a, 0x3e11883d, 0xf2b0473e, 0x7958239f, 0xd11492ef,
           0x8532ca57, 0xaf21e60b, 0xba287025, 0xb0acbb32);
    ByteIs(0xb0acbb32, 0x33, 0xb0acbb01, 0xb5eedea0, 0x5af76f50, 0x2d7bb7a8, 0x16bddbd4,
           0x0b5eedea, 0x05af76f5, 0xef6f385a, 0x77b79c2d);
    ByteIs(0x77b79c2d, 0x34, 0x77b79c19, 0xd6634d2c, 0x6b31a696, 0x3598d34b, 0xf774ea85,
           0x9602f662, 0x4b017b31, 0xc8383eb8, 0x641c1f5c);
    ByteIs(0x641c1f5c, 0x35, 0x641c1f69, 0xdfb68c94, 0x6fdb464a, 0x37eda325, 0xf64e52b2,
           0x7b272959, 0xd02b178c, 0x68158bc6, 0x340ac5e3);
    ByteIs(0x340ac5e3, 0x36, 0x340ac5d5, 0xf7bde1ca, 0x7bdef0e5, 0xd057fb52, 0x682bfda9,
           0xd9ad7df4, 0x6cd6befa, 0x366b5f7d, 0xf68d2c9e);
    ByteIs(0xf68d2c9e, 0x37, 0xf68d2ca9, 0x96fe1574, 0x4b7f0aba, 0x25bf855d, 0xff67418e,
           0x7fb3a0c7, 0xd2615343, 0x84882a81, 0xaffc9660);
    ByteIs(0xaffc9660, 0x38, 0xaffc9658, 0x57fe4b2c, 0x2bff2596, 0x15ff92cb, 0xe7474a45,
           0x9e1b2602, 0x4f0d9301, 0xca3e4aa0, 0x651f2550);
    ByteIs(0x651f2550, 0x39, 0x651f2569, 0xdf371194, 0x6f9b88ca, 0x37cdc465, 0xf65e6112,
           0x7b2f3089, 0xd02f1b64, 0x68178db2, 0x340bc6d9);
    hide ByteStep, BitStep;
    assert [0x39] + [] == [0x39 as bv8];
    var s8: seq<bv8> := [0x39];
    var s7 := [0x38] + s8;
    var s6 := [0x37] + s7;
    var s5 := [0x36] + s6;
    var s4 := [0x35] + s5;
    var s3 := [0x34] + s4;
    var s2 := [0x33] + s3;
    var s1 := [0x32] + s2;
    var s0 := [0x31] + s1;
    StateStep(0x651f2550, 0x39, []);
    StateStep(0xaffc9660, 0x38, s8);
    StateStep(0xf68d2c9e, 0x37, s7);
    StateStep(0x340ac5e3, 0x36, s6);
    StateStep(0x641c1f5c, 0x35, s5);
    StateStep(0x77b79c2d, 0x34, s4);
    StateStep(0xb0acbb32, 0x33, s3);
    StateStep(0x7c231048, 0x32, s2);
    StateStep(0xffffffff, 0x31, s1);
    assert State(0x340bc6d9, []) == 0x340bc6d9;
  }

  // ---------- Composition ----------

  lemma {:induction false} StateAppend(c: bv32, a: seq<bv8>, b: seq<bv8>)
    ensures State(c, a + b) == State(State(c, a), b)
    decreases |a|
  {
    hide ByteStep;
    if a == [] {
      assert a + b == b;
    } else {
      assert (a + b)[1..] == a[1..] + b;
      StateAppend(ByteStep(c, a[0]), a[1..], b);
    }
  }

  lemma ComplementTwice(c: bv32)
    ensures Complement(Complement(c)) == c
  {
  }

  /** The checksum of a concatenation continues the checksum of its first part. */
  lemma CrcComposes(crc: bv32, a: seq<bv8>, b: seq<bv8>)
    ensures Crc(crc, a + b) == Crc(Crc(crc, a), b)
  {
    hide ByteStep, Complement;
    StateAppend(Complement(crc), a, b);
    ComplementTwice(State(Complement(crc), a));
  }

  // ---------- The table-driven code ----------

  /** Entry n of the table: eight bits of the construction loop applied to n. */
  function TableEntry(n: bv32): bv32 {
    BitSteps(n)
  }

  /** The register after a byte string, one table look-up per byte. */
  function TableState(c: bv32, data: seq<bv8>): bv32
    decreases |data|
  {
    if data == [] then c
    else TableState(Xor(TableEntry(LowByte(Xor(c, Wide(data[0])))), Shr8(c)), data[1..])
  }

  lemma BothFold(a: bv32, b: bv32)
    requires a & 1 == 1 && b & 1 == 1
    ensures BitStep(Xor(a, b)) == Xor(BitStep(a), BitStep(b))
  {
  }

  lemma OneFolds(a: bv32, b: bv32)
    requires a & 1 == 1 && b & 1 != 1
    ensures BitStep(Xor(a, b)) == Xor(BitStep(a), BitStep(b))
  {
  }

  lemma OtherFolds(a: bv32, b: bv32)
    requires a & 1 != 1 && b & 1 == 1
    ensures BitStep(Xor(a, b)) == Xor(BitStep(a), BitStep(b))
  {
  }

  lemma NoneFolds(a: bv32, b: bv32)
    requires a & 1 != 1 && b & 1 != 1
    ensures BitStep(Xor(a, b)) == Xor(BitStep(a), BitStep(b))
  {
  }

  /** Any number of bits is linear in the register. */
  lemma {:induction false} BitsAreLinear(a: bv32, b: bv32, n: nat)
    ensures Bits(Xor(a, b), n) == Xor(Bits(a, n), Bits(b, n))
    decreases n
  {
    hide BitStep, Xor;
    if n > 0 {
      if a & 1 == 1 && b & 1 == 1 {
        BothFold(a, b);
      } else if a & 1 == 1 {
        OneFolds(a, b);
      } else if b & 1 == 1 {
        OtherFolds(a, b);
      } else {
        NoneFolds(a, b);
      }
      BitsAreLinear(BitStep(a), BitStep(b), n - 1);
    }
  }

  lemma HighBytesOnlyShift(c: bv32)
    ensures BitSteps(HighBytes(c)) == Shr8(c)
  {
  }

  lemma SplitLowByte(c: bv32, b: bv8)
    ensures c == Xor(LowByte(c), HighBytes(c)) && Shr8(Xor(c, Wide(b))) == Shr8(c)
  {
  }

  lemma ByteStepIsTableStep(c: bv32, b: bv8)
    ensures ByteStep(c, b) == Xor(TableEntry(LowByte(Xor(c, Wide(b)))), Shr8(c))
  {
    hide BitStep, BitSteps, Xor, Wide, LowByte, HighBytes, Shr8;
    var x := Xor(c, Wide(b));
    SplitLowByte(x, b);
    SplitLowByte(c, b);
    BitsAreLinear(LowByte(x), HighBytes(x), 8);
    EightBits(LowByte(x));
    EightBits(HighBytes(x));
    EightBits(Xor(LowByte(x), HighBytes(x)));
    HighBytesOnlyShift(x);
  }

  /** The bit loop computes what the table-driven code of RFC 1952 computes. */
  lemma {:induction false} BitLoopIsTableDriven(c: bv32, data: seq<bv8>)
    ensures State(c, data) == TableState(c, data)
    decreases |data|
  {
    hide ByteStep, TableEntry, Xor, LowByte, Shr8, Wide;
    if data != [] {
      ByteStepIsTableStep(c, data[0]);
      BitLoopIsTableDriven(ByteStep(c, data[0]), data[1..]);
    }
  }

  // ---------- Detection ----------

  lemma BitStepIsInjective(a: bv32, b: bv32)
    requires BitStep(a) == BitStep(b)
    ensures a == b
  {
  }

  lemma BitStepsAreInjective(a: bv32, b: bv32)
    requires BitSteps(a) == BitSteps(b)
    ensures a == b
  {
    hide BitStep;
    var a2, b2 := BitStep(BitStep(a)), BitStep(BitStep(b));
    var a4, b4 := BitStep(BitStep(a2)), BitStep(BitStep(b2));
    var a6, b6 := BitStep(BitStep(a4)), BitStep(BitStep(b4));
    BitStepIsInjective(BitStep(a6), BitStep(b6));
    BitStepIsInjective(a6, b6);
    BitStepIsInjective(BitStep(a4), BitStep(b4));
    BitStepIsInjective(a4, b4);
    BitStepIsInjective(BitStep(a2), BitStep(b2));
    BitStepIsInjective(a2, b2);
    BitStepIsInjective(BitStep(a), BitStep(b));
    BitStepIsInjective(a, b);
  }

  lemma XorCancels(a: bv32, b: bv32, x: bv32)
    requires Xor(a, x) == Xor(b, x) || Xor(x, a) == Xor(x, b)
    ensures a == b
  {
  }

  lemma WideIsInjective(a: bv8, b: bv8)
    requires Wide(a) == Wide(b)
    ensures a == b
  {
  }

  /** The same bytes never bring two different registers together. */
  lemma {:induction false} StateIsInjective(a: bv32, b: bv32, data: seq<bv8>)
    requires State(a, data) == State(b, data)
    ensures a == b
    decreases |data|
  {
    hide BitSteps, Xor, Wide;
    if data != [] {
      StateIsInjective(ByteStep(a, data[0]), ByteStep(b, data[0]), data[1..]);
      BitStepsAreInjective(Xor(a, Wide(data[0])), Xor(b, Wide(data[0])));
      XorCancels(a, b, Wide(data[0]));
    }
  }

  /** Two messages that differ in one byte have different checksums. */
  lemma ByteChangeIsDetected(crc: bv32, before: seq<bv8>, a: bv8, b: bv8, after: seq<bv8>)
    requires a != b
    ensures Crc(crc, before + [a] + after) != Crc(crc, before + [b] + after)
  {
    hide BitSteps, Xor, Wide, Complement;
    var c := State(Complement(crc), before);
    if Crc(crc, before + [a] + after) == Crc(crc, before + [b] + after) {
      ComplementTwice(State(Complement(crc), before + [a] + after));
      ComplementTwice(State(Complement(crc), before + [b] + after));
      StateAppend(Complement(crc), before + [a], after);
      StateAppend(Complement(crc), before + [b], after);
      StateAppend(Complement(crc), before, [a]);
      StateAppend(Complement(crc), before, [b]);
      StateIsInjective(State(c, [a]), State(c, [b]), after);
      assert State(c, [a]) == ByteStep(c, a) && State(c, [b]) == ByteStep(c, b);
      BitStepsAreInjective(Xor(c, Wide(a)), Xor(c, Wide(b)));
      XorCancels(Wide(a), Wide(b), c);
      WideIsInjective(a, b);
    }
  }

  /** Four bytes as the word they enter the register as. */
  function Word(w: seq<bv8>): bv32
    requires |w| == 4
  {
    Xor(Xor(Xor(Wide(w[0]), Shl8(Wide(w[1]))), Shl8(Shl8(Wide(w[2])))), Shl8(Shl8(Shl8(Wide(w[3])))))
  }

  lemma WordBytes(b0: bv8, b1: bv8, b2: bv8, b3: bv8)
    ensures var w := (b0 as bv32) ^ ((b1 as bv32) << 8) ^ (((b2 as bv32) << 8) << 8) ^ ((((b3 as bv32) << 8) << 8) << 8);
            && (w & 0xff) as bv8 == b0 && ((w >> 8) & 0xff) as bv8 == b1
            && ((w >> 16) & 0xff) as bv8 == b2 && ((w >> 24) & 0xff) as bv8 == b3
  {
  }

  lemma WordIsInjective(v: seq<bv8>, w: seq<bv8>)
    requires |v| == |w| == 4 && Word(v) == Word(w)
    ensures v == w
  {
    WordBytes(v[0], v[1], v[2], v[3]);
    WordBytes(w[0], w[1], w[2], w[3]);
  }

  predicate TopByteClear(c: bv32) {
    c & 0xff00_0000 == 0
  }

  lemma ShlIsHigh(b: bv32)
    requires TopByteClear(b)
    ensures HighBytes(Shl8(b)) == Shl8(b) && Shr8(Shl8(b)) == b
  {
  }

  /** A byte folded in after eight bits could have entered eight bits earlier. */
  lemma EntersEarlier(x: bv32, b: bv32)
    requires TopByteClear(b)
    ensures Xor(BitSteps(x), b) == BitSteps(Xor(x, Shl8(b)))
  {
    hide BitStep, BitSteps, Xor, HighBytes, Shl8, Shr8, TopByteClear;
    BitsAreLinear(x, Shl8(b), 8);
    EightBits(x);
    EightBits(Shl8(b));
    EightBits(Xor(x, Shl8(b)));
    ShlIsHigh(b);
    HighBytesOnlyShift(Shl8(b));
  }

  lemma ShiftsOfByte(b: bv8)
    ensures TopByteClear(Wide(b)) && TopByteClear(Shl8(Wide(b))) && TopByteClear(Shl8(Shl8(Wide(b))))
  {
  }

  lemma XorChain(c: bv32, p: bv32, q: bv32, r: bv32, s: bv32)
    ensures Xor(Xor(Xor(Xor(c, p), q), r), s) == Xor(c, Xor(Xor(Xor(p, q), r), s))
  {
  }

  lemma FourSteps(c: bv32, w: seq<bv8>)
    requires |w| == 4
    ensures State(c, w) == ByteStep(ByteStep(ByteStep(ByteStep(c, w[0]), w[1]), w[2]), w[3])
  {
    hide ByteStep;
    var c2 := ByteStep(ByteStep(c, w[0]), w[1]);
    var c4 := ByteStep(ByteStep(c2, w[2]), w[3]);
    assert w[1..][1..] == w[2..] && w[2..][1..] == w[3..] && w[3..][1..] == [];
    assert State(c, w) == State(ByteStep(c, w[0]), w[1..]) == State(c2, w[2..]);
    assert State(c2, w[2..]) == State(ByteStep(c2, w[2]), w[3..]) == State(c4, []);
  }

  lemma FourBytesAreAWord(c: bv32, w: seq<bv8>)
    requires |w| == 4
    ensures State(c, w) == BitSteps(BitSteps(BitSteps(BitSteps(Xor(c, Word(w))))))
  {
    hide BitSteps, Xor, Wide, Shl8, TopByteClear;
    var b0, b1, b2, b3 := Wide(w[0]), Wide(w[1]), Wide(w[2]), Wide(w[3]);
    ShiftsOfByte(w[1]);
    ShiftsOfByte(w[2]);
    ShiftsOfByte(w[3]);
    var x0 := Xor(c, b0);
    EntersEarlier(x0, b1);
    var x1 := Xor(x0, Shl8(b1));
    EntersEarlier(BitSteps(x1), b2);
    EntersEarlier(x1, Shl8(b2));
    var x2 := Xor(x1, Shl8(Shl8(b2)));
    EntersEarlier(BitSteps(BitSteps(x2)), b3);
    EntersEarlier(BitSteps(x2), Shl8(b3));
    EntersEarlier(x2, Shl8(Shl8(b3)));
    XorChain(c, b0, Shl8(b1), Shl8(Shl8(b2)), Shl8(Shl8(Shl8(b3))));
    FourSteps(c, w);
  }

  /** So do messages that differ only inside four consecutive bytes. */
  lemma BurstIsDetected(crc: bv32, before: seq<bv8>, v: seq<bv8>, w: seq<bv8>, after: seq<bv8>)
    requires |v| == |w| == 4 && v != w
    ensures Crc(crc, before + v + after) != Crc(crc, before + w + after)
  {
    hide BitSteps, Xor, Word, Complement;
    var c := State(Complement(crc), before);
    if Crc(crc, before + v + after) == Crc(crc, before + w + after) {
      ComplementTwice(State(Complement(crc), before + v + after));
      ComplementTwice(State(Complement(crc), before + w + after));
      StateAppend(Complement(crc), before + v, after);
      StateAppend(Complement(crc), before + w, after);
      StateAppend(Complement(crc), before, v);
      StateAppend(Complement(crc), before, w);
      StateIsInjective(State(c, v), State(c, w), after);
      FourBytesAreAWord(c, v);
      FourBytesAreAWord(c, w);
      var p, q := Xor(c, Word(v)), Xor(c, Word(w));
      BitStepsAreInjective(BitSteps(BitSteps(BitSteps(p))), BitSteps(BitSteps(BitSteps(q))));
      BitStepsAreInjective(BitSteps(BitSteps(p)), BitSteps(BitSteps(q)));
      BitStepsAreInjective(BitSteps(p), BitSteps(q));
      BitStepsAreInjective(p, q);
      XorCancels(Word(v), Word(w), c);
      WordIsInjective(v, w);
    }
  }
}
