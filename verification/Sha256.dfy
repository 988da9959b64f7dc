/**
 * The relay's streaming SHA-256 and the standard it follows (FIPS 180-4):
 * message schedule and compression of section 6.2.2, padding of section 5.1.1.
 */
module Sha256 {
  import opened Bytes

  // ---------- The functions of section 4.1.2 ----------

  function Rotr(x: bv32, n: bv32): bv32
    requires 0 < n < 32
  {
    (x >> n) | (x << (32 - n))
  }

  function Ch(x: bv32, y: bv32, z: bv32): bv32 { (x & y) ^ (!x & z) }

  function Maj(x: bv32, y: bv32, z: bv32): bv32 { (x & y) ^ (x & z) ^ (y & z) }

  function BigSigma0(x: bv32): bv32 { Rotr(x, 2) ^ Rotr(x, 13) ^ Rotr(x, 22) }

  function BigSigma1(x: bv32): bv32 { Rotr(x, 6) ^ Rotr(x, 11) ^ Rotr(x, 25) }

  function SmallSigma0(x: bv32): bv32 { Rotr(x, 7) ^ Rotr(x, 18) ^ (x >> 3) }

  function SmallSigma1(x: bv32): bv32 { Rotr(x, 17) ^ Rotr(x, 19) ^ (x >> 10) }

  function Add(x: bv32, y: bv32): bv32 { x + y }

  function Add4(x: bv32, y: bv32, z: bv32, u: bv32): bv32 { x + y + z + u }

  const K0: seq<bv32> := [0x428a2f98, 0x71374491, 0xb5c0fbcf, 0xe9b5dba5, 0x3956c25b, 0x59f111f1, 0x923f82a4, 0xab1c5ed5]
  const K1: seq<bv32> := [0xd807aa98, 0x12835b01, 0x243185be, 0x550c7dc3, 0x72be5d74, 0x80deb1fe, 0x9bdc06a7, 0xc19bf174]
  const K2: seq<bv32> := [0xe49b69c1, 0xefbe4786, 0x0fc19dc6, 0x240ca1cc, 0x2de92c6f, 0x4a7484aa, 0x5cb0a9dc, 0x76f988da]
  const K3: seq<bv32> := [0x983e5152, 0xa831c66d, 0xb00327c8, 0xbf597fc7, 0xc6e00bf3, 0xd5a79147, 0x06ca6351, 0x14292967]
  const K4: seq<bv32> := [0x27b70a85, 0x2e1b2138, 0x4d2c6dfc, 0x53380d13, 0x650a7354, 0x766a0abb, 0x81c2c92e, 0x92722c85]
  const K5: seq<bv32> := [0xa2bfe8a1, 0xa81a664b, 0xc24b8b70, 0xc76c51a3, 0xd192e819, 0xd6990624, 0xf40e3585, 0x106aa070]
  const K6: seq<bv32> := [0x19a4c116, 0x1e376c08, 0x2748774c, 0x34b0bcb5, 0x391c0cb3, 0x4ed8aa4a, 0x5b9cca4f, 0x682e6ff3]
  const K7: seq<bv32> := [0x748f82ee, 0x78a5636f, 0x84c87814, 0x8cc70208, 0x90befffa, 0xa4506ceb, 0xbef9a3f7, 0xc67178f2]

  const K: seq<bv32> := K0 + K1 + K2 + K3 + K4 + K5 + K6 + K7

  /** The eight working variables, and the hash value between blocks. */
  datatype Hash = Hash(a: bv32, b: bv32, c: bv32, d: bv32, e: bv32, f: bv32, g: bv32, h: bv32)

  const INITIAL: Hash := Hash(0x6a09e667, 0xbb67ae85, 0x3c6ef372, 0xa54ff53a, 0x510e527f, 0x9b05688c, 0x1f83d9ab, 0x5be0cd19)

  // ---------- Compression, section 6.2.2 ----------

  function BigEndian(b: seq<bv8>): bv32
    requires |b| == 4
  {
    ((b[0] as bv32) << 24) | ((b[1] as bv32) << 16) | ((b[2] as bv32) << 8) | (b[3] as bv32)
  }

  function ToBigEndian(v: bv32): (s: seq<bv8>)
    ensures |s| == 4
  {
    [((v >> 24) & 0xff) as bv8, ((v >> 16) & 0xff) as bv8, ((v >> 8) & 0xff) as bv8, (v & 0xff) as bv8]
  }

  /** Word t of the message schedule. */
  function Word(block: seq<bv8>, t: nat): bv32
    requires |block| == 64 && t < 64
  {
    if t < 16 then BigEndian(block[4 * t..4 * t + 4])
    else Add4(SmallSigma1(Word(block, t - 2)), Word(block, t - 7), SmallSigma0(Word(block, t - 15)), Word(block, t - 16))
  }

  function Round(v: Hash, k: bv32, w: bv32): Hash {
    var t1 := Add(Add(Add(Add(v.h, BigSigma1(v.e)), Ch(v.e, v.f, v.g)), k), w);
    var t2 := Add(BigSigma0(v.a), Maj(v.a, v.b, v.c));
    Hash(Add(t1, t2), v.a, v.b, v.c, Add(v.d, t1), v.e, v.f, v.g)
  }

  /** The working variables after the first t rounds. */
  function Rounds(v: Hash, block: seq<bv8>, t: nat): Hash
    requires |block| == 64 && t <= 64
  {
    if t == 0 then v else Round(Rounds(v, block, t - 1), K[t - 1], Word(block, t - 1))
  }

  function Sum(x: Hash, y: Hash): Hash {
    Hash(Add(x.a, y.a), Add(x.b, y.b), Add(x.c, y.c), Add(x.d, y.d), Add(x.e, y.e), Add(x.f, y.f), Add(x.g, y.g), Add(x.h, y.h))
  }

  function Compress(hash: Hash, block: seq<bv8>): Hash
    requires |block| == 64
  {
    Sum(hash, Rounds(hash, block, 64))
  }

  // ---------- Padding, section 5.1.1 ----------

  function Zeros(n: nat): (s: seq<bv8>)
    ensures |s| == n
  {
    seq(n, _ => 0)
  }

  /** After the message, a one bit and k zero bytes, eight bytes of the last block are left. */
  predicate LeavesLength(length: nat, k: nat) {
    (length + 1 + k) % 64 == 56
  }

  /** The number of zero bytes before the length: the smallest that leaves room for exactly the length. */
  function ZeroCount(length: nat): (k: nat)
    ensures k < 64 && LeavesLength(length, k)
    ensures forall j: nat :: LeavesLength(length, j) ==> k <= j
  {
    (119 - length % 64) % 64
  }

  /** The length of the message in bits as 64 bits, most significant byte first. */
  function LengthBytes(bits: nat): (s: seq<bv8>)
    ensures |s| == 8
  {
    seq(8, i requires 0 <= i < 8 => (ToLe(bits % 0x1_0000_0000_0000_0000, 8)[7 - i] as int) as bv8)
  }

  lemma PaddedIsWhole(length: nat, zeros: seq<bv8>, bytes: seq<bv8>)
    requires LeavesLength(length, |zeros|) && |bytes| == 8
    ensures (length + |[0x80 as bv8] + zeros + bytes|) % 64 == 0
  {
    assert |[0x80 as bv8] + zeros + bytes| == |zeros| + 9;
  }

  /** Makes a message a whole number of blocks. */
  function Padding(length: nat): (padding: seq<bv8>)
    ensures (length + |padding|) % 64 == 0
  {
    var zeros, bytes := Zeros(ZeroCount(length)), LengthBytes(8 * length);
    PaddedIsWhole(length, zeros, bytes);
    [0x80] + zeros + bytes
  }

  // ---------- Blocks ----------

  datatype Absorbed = Absorbed(hash: Hash, rest: seq<bv8>)

  /** Compresses every whole block of data; the bytes after the last one remain. */
  function Absorb(hash: Hash, data: seq<bv8>): (r: Absorbed)
    ensures |r.rest| < 64
    decreases |data|
  {
    if |data| < 64 then Absorbed(hash, data) else Absorb(Compress(hash, data[..64]), data[64..])
  }

  function DigestBytes(h: Hash): (s: seq<bv8>)
    ensures |s| == 32
  {
    ToBigEndian(h.a) + ToBigEndian(h.b) + ToBigEndian(h.c) + ToBigEndian(h.d)
    + ToBigEndian(h.e) + ToBigEndian(h.f) + ToBigEndian(h.g) + ToBigEndian(h.h)
  }

  /** The digest of a message: pad it, and compress its blocks from the initial value. */
  function Digest(message: seq<bv8>): (s: seq<bv8>)
    ensures |s| == 32
  {
    DigestBytes(Absorb(INITIAL, message + Padding(|message|)).hash)
  }

  /** Absorbing in two pieces is absorbing the concatenation. */
  lemma {:induction false} AbsorbAppend(hash: Hash, a: seq<bv8>, b: seq<bv8>)
    ensures var r := Absorb(hash, a);
            Absorb(hash, a + b) == Absorb(r.hash, r.rest + b)
    decreases |a|
  {
    hide Compress;
    if |a| >= 64 {
      assert (a + b)[..64] == a[..64] && (a + b)[64..] == a[64..] + b;
      AbsorbAppend(Compress(hash, a[..64]), a[64..], b);
    }
  }

  // ---------- The streaming context ----------

  datatype Context = Context(absorbed: Absorbed, bits: nat)

  const START: Context := Context(Absorbed(INITIAL, []), 0)

  function Updated(c: Context, data: seq<bv8>): Context {
    Context(Absorb(c.absorbed.hash, c.absorbed.rest + data), (c.bits + 8 * |data|) % 0x1_0000_0000_0000_0000)
  }

  function UpdatedAll(c: Context, chunks: seq<seq<bv8>>): Context
    decreases |chunks|
  {
    if chunks == [] then c else UpdatedAll(Updated(c, chunks[0]), chunks[1..])
  }

  /** The context after a message, however it was cut up. */
  function Of(message: seq<bv8>): Context {
    Context(Absorb(INITIAL, message), 8 * |message| % 0x1_0000_0000_0000_0000)
  }

  lemma UpdateExtends(message: seq<bv8>, data: seq<bv8>)
    ensures Updated(Of(message), data) == Of(message + data)
  {
    hide Absorb;
    AbsorbAppend(INITIAL, message, data);
  }

  /** Every way of cutting a message into updates leads to the same context. */
  lemma {:induction false} SplitIndependent(message: seq<bv8>, chunks: seq<seq<bv8>>)
    ensures UpdatedAll(Of(message), chunks) == Of(message + Flatten(chunks))
    decreases |chunks|
  {
    hide Updated, Of;
    if chunks == [] {
      assert message + Flatten(chunks) == message;
    } else {
      UpdateExtends(message, chunks[0]);
      SplitIndependent(message + chunks[0], chunks[1..]);
      assert message + Flatten(chunks) == message + chunks[0] + Flatten(chunks[1..]);
    }
  }

  lemma {:induction false} RestLength(hash: Hash, data: seq<bv8>)
    ensures |Absorb(hash, data).rest| == |data| % 64
    decreases |data|
  {
    hide Compress;
    if |data| >= 64 {
      RestLength(Compress(hash, data[..64]), data[64..]);
    }
  }

  lemma ShortAbsorb(hash: Hash, data: seq<bv8>)
    requires |data| < 64
    ensures Absorb(hash, data) == Absorbed(hash, data)
  {
  }

  function HashOf(s: seq<bv32>): Hash
    requires |s| == 8
  {
    Hash(s[0], s[1], s[2], s[3], s[4], s[5], s[6], s[7])
  }

  /** The source adds the four terms of a schedule word in another order than the standard. */
  lemma AddReorders(p: bv32, q: bv32, r: bv32, s: bv32)
    ensures Add4(s, q, r, p) == Add4(p, r, q, s)
  {
  }

  class Hasher {
    const state: array<bv32>
    const buffer: array<bv8>
    var bufferLen: nat
    var bitCount: nat

    ghost predicate Valid()
      reads this
    {
      state.Length == 8 && buffer.Length == 64 && bufferLen < 64 && bitCount < 0x1_0000_0000_0000_0000
    }

    ghost function View(): Context
      requires Valid()
      reads this, state, buffer
    {
      Context(Absorbed(HashOf(state[..]), buffer[..bufferLen]), bitCount)
    }

    constructor ()
      ensures Valid() && fresh(state) && fresh(buffer) && View() == START
    {
      state := new bv32[8] [0x6a09e667, 0xbb67ae85, 0x3c6ef372, 0xa54ff53a, 0x510e527f, 0x9b05688c, 0x1f83d9ab, 0x5be0cd19];
      buffer := new bv8[64](_ => 0);
      bufferLen, bitCount := 0, 0;
    }

    method Transform()
      requires state.Length == 8 && buffer.Length == 64
      modifies state
      ensures HashOf(state[..]) == Compress(old(HashOf(state[..])), buffer[..])
    {
      hide Add, SmallSigma0, SmallSigma1, BigSigma0, BigSigma1, Ch, Maj, BigEndian;
      var w := ExpandSchedule(buffer[..]);
      ghost var start := HashOf(state[..]);
      var v := HashOf(state[..]);
      for index := 0 to 64
        invariant v == Rounds(start, buffer[..], index)
      {
        var t1 := Add(Add(Add(Add(v.h, BigSigma1(v.e)), Ch(v.e, v.f, v.g)), K[index]), w[index]);
        var t2 := Add(BigSigma0(v.a), Maj(v.a, v.b, v.c));
        v := Hash(Add(t1, t2), v.a, v.b, v.c, Add(v.d, t1), v.e, v.f, v.g);
      }
      state[0], state[1], state[2], state[3] := Add(state[0], v.a), Add(state[1], v.b), Add(state[2], v.c), Add(state[3], v.d);
      state[4], state[5], state[6], state[7] := Add(state[4], v.e), Add(state[5], v.f), Add(state[6], v.g), Add(state[7], v.h);
    }

    method Update(data: seq<bv8>)
      requires Valid()
      modifies this, state, buffer
      ensures Valid() && View() == Updated(old(View()), data)
    {
      hide Absorb;
      ghost var hash, rest := View().absorbed.hash, View().absorbed.rest;
      if data == [] {
        ShortAbsorb(hash, rest);
        assert rest + data == rest;
        return;
      }
      bitCount := (bitCount + 8 * |data|) % 0x1_0000_0000_0000_0000;
      var offset := 0;
      assert rest + data[..0] == rest;
      ShortAbsorb(hash, rest);
      while offset < |data|
        invariant Valid() && offset <= |data|
        invariant View().absorbed == Absorb(hash, rest + data[..offset])
        invariant bitCount == (old(bitCount) + 8 * |data|) % 0x1_0000_0000_0000_0000
      {
        var space := 64 - bufferLen;
        var copyLen := if |data| - offset < space then |data| - offset else space;
        ghost var bytes := data[offset..offset + copyLen];
        AbsorbAppend(hash, rest + data[..offset], bytes);
        assert rest + data[..offset] + bytes == rest + data[..offset + copyLen];
        AppendBlock(data[offset..offset + copyLen]);
        offset := offset + copyLen;
      }
      assert data[..offset] == data;
    }

    /** Appends at most what fits in the buffer, and compresses the buffer when it is full. */
    method AppendBlock(bytes: seq<bv8>)
      requires Valid() && bufferLen + |bytes| <= 64
      modifies this`bufferLen, state, buffer
      ensures Valid()
      ensures var old0 := old(View().absorbed);
              View().absorbed == Absorb(old0.hash, old0.rest + bytes)
    {
      hide Compress;
      Fill(bytes);
      ghost var hash, rest := HashOf(state[..]), buffer[..bufferLen + |bytes|];
      bufferLen := bufferLen + |bytes|;
      if bufferLen == 64 {
        assert buffer[..] == rest && rest[..64] == rest && rest[64..] == [];
        Transform();
        bufferLen := 0;
        assert buffer[..0] == [];
      }
    }

    /** Copies bytes behind the buffered ones. */
    method Fill(bytes: seq<bv8>)
      requires Valid() && bufferLen + |bytes| <= 64
      modifies buffer
      ensures buffer[..bufferLen + |bytes|] == old(buffer[..bufferLen]) + bytes
    {
      for i := 0 to |bytes|
        invariant buffer[..bufferLen + i] == old(buffer[..bufferLen]) + bytes[..i]
      {
        buffer[bufferLen + i] := bytes[i];
      }
    }

    method Finish(ghost message: seq<bv8>) returns (digest: seq<bv8>)
      requires Valid() && View() == Of(message)
      modifies this, state, buffer
      ensures digest == Digest(message)
    {
      hide Absorb, Updated, LengthBytes, DigestBytes;
      var lengthBytes := LengthBytes(bitCount);
      Update([0x80]);
      ghost var padded := message + [0x80];
      UpdateExtends(message, [0x80]);
      ghost var zeros := 0;
      assert padded + Zeros(0) == padded;
      RestLength(INITIAL, padded);
      while bufferLen != 56
        invariant Valid() && zeros <= ZeroCount(|message|)
        invariant View() == Of(padded + Zeros(zeros)) && bufferLen == (|padded| + zeros) % 64
        decreases ZeroCount(|message|) - zeros
      {
        assert !LeavesLength(|message|, zeros);
        Update([0]);
        UpdateExtends(padded + Zeros(zeros), [0]);
        assert padded + Zeros(zeros) + [0] == padded + Zeros(zeros + 1);
        zeros := zeros + 1;
        RestLength(INITIAL, padded + Zeros(zeros));
      }
      assert LeavesLength(|message|, zeros) && zeros == ZeroCount(|message|);
      Update(lengthBytes);
      UpdateExtends(padded + Zeros(zeros), lengthBytes);
      LengthOfWrapped(8 * |message|);
      assert padded + Zeros(zeros) + lengthBytes == message + Padding(|message|);
      digest := DigestBytes(HashOf(state[..]));
    }
  }

  lemma LengthOfWrapped(bits: nat)
    ensures LengthBytes(bits % 0x1_0000_0000_0000_0000) == LengthBytes(bits)
  {
    assert (bits % 0x1_0000_0000_0000_0000) % 0x1_0000_0000_0000_0000 == bits % 0x1_0000_0000_0000_0000;
  }

  /** The message schedule, word by word. */
  method ExpandSchedule(block: seq<bv8>) returns (w: array<bv32>)
    requires |block| == 64
    ensures fresh(w) && w.Length == 64 && forall t :: 0 <= t < 64 ==> w[t] == Word(block, t)
  {
    hide Add4, SmallSigma0, SmallSigma1, BigEndian;
    w := new bv32[64](_ => 0);
    for t := 0 to 16
      invariant forall j :: 0 <= j < t ==> w[j] == Word(block, j)
    {
      w[t] := BigEndian(block[4 * t..4 * t + 4]);
    }
    for t := 16 to 64
      invariant forall j :: 0 <= j < t ==> w[j] == Word(block, j)
    {
      assert w[t - 15] == Word(block, t - 15) && w[t - 2] == Word(block, t - 2);
      assert w[t - 16] == Word(block, t - 16) && w[t - 7] == Word(block, t - 7);
      var s0 := SmallSigma0(w[t - 15]);
      var s1 := SmallSigma1(w[t - 2]);
      AddReorders(w[t - 16], w[t - 7], s0, s1);
      w[t] := Add4(w[t - 16], s0, w[t - 7], s1);
    }
  }
}
