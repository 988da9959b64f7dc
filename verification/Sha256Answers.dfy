/**
 * Known answers of the digest, and where its constants come from.
 *
 * The functions of the digest are first compared with the formulas of section
 * 4.1.2 of FIPS 180-4, with every rotation written out as two shifts, and its
 * round constants and initial hash value with the roots of primes they are the
 * fractional parts of.
 *
 * Then the digest of two messages is computed: "abc", which takes one block, and
 * 64 letters "a", whose padding takes a second one. The computation follows the
 * rounds, four at a time, with the working variables after each of them.
 */
module Sha256Answers {

  import opened Bytes
  import opened Sha256

  // ---------- The functions of section 4.1.2, with the rotations written out ----------

  lemma Rotated2(x: bv32)
    ensures Rotr(x, 2) == (x >> 2) | (x << 30)
  {
  }

  lemma Rotated6(x: bv32)
    ensures Rotr(x, 6) == (x >> 6) | (x << 26)
  {
  }

  lemma Rotated7(x: bv32)
    ensures Rotr(x, 7) == (x >> 7) | (x << 25)
  {
  }

  lemma Rotated11(x: bv32)
    ensures Rotr(x, 11) == (x >> 11) | (x << 21)
  {
  }

  lemma Rotated13(x: bv32)
    ensures Rotr(x, 13) == (x >> 13) | (x << 19)
  {
  }

  lemma Rotated17(x: bv32)
    ensures Rotr(x, 17) == (x >> 17) | (x << 15)
  {
  }

  lemma Rotated18(x: bv32)
    ensures Rotr(x, 18) == (x >> 18) | (x << 14)
  {
  }

  lemma Rotated19(x: bv32)
    ensures Rotr(x, 19) == (x >> 19) | (x << 13)
  {
  }

  lemma Rotated22(x: bv32)
    ensures Rotr(x, 22) == (x >> 22) | (x << 10)
  {
  }

  lemma Rotated25(x: bv32)
    ensures Rotr(x, 25) == (x >> 25) | (x << 7)
  {
  }

  function Xor(x: bv32, y: bv32, z: bv32): bv32 { x ^ y ^ z }

  lemma BigSigma0Is(x: bv32)
    ensures BigSigma0(x) == ((x >> 2) | (x << 30)) ^ ((x >> 13) | (x << 19)) ^ ((x >> 22) | (x << 10))
  {
    Rotated2(x);
    Rotated13(x);
    Rotated22(x);
    assert BigSigma0(x) == Xor(Rotr(x, 2), Rotr(x, 13), Rotr(x, 22)) by {
      BigSigma0Xors(x);
    }
    hide Rotr, BigSigma0;
  }

  lemma BigSigma0Xors(x: bv32)
    ensures BigSigma0(x) == Xor(Rotr(x, 2), Rotr(x, 13), Rotr(x, 22))
  {
    hide Rotr;
  }

  lemma BigSigma1Is(x: bv32)
    ensures BigSigma1(x) == ((x >> 6) | (x << 26)) ^ ((x >> 11) | (x << 21)) ^ ((x >> 25) | (x << 7))
  {
    Rotated6(x);
    Rotated11(x);
    Rotated25(x);
    assert BigSigma1(x) == Xor(Rotr(x, 6), Rotr(x, 11), Rotr(x, 25)) by {
      BigSigma1Xors(x);
    }
    hide Rotr, BigSigma1;
  }

  lemma BigSigma1Xors(x: bv32)
    ensures BigSigma1(x) == Xor(Rotr(x, 6), Rotr(x, 11), Rotr(x, 25))
  {
    hide Rotr;
  }

  lemma SmallSigma0Is(x: bv32)
    ensures SmallSigma0(x) == ((x >> 7) | (x << 25)) ^ ((x >> 18) | (x << 14)) ^ (x >> 3)
  {
    Rotated7(x);
    Rotated18(x);
    assert SmallSigma0(x) == Xor(Rotr(x, 7), Rotr(x, 18), x >> 3) by {
      SmallSigma0Xors(x);
    }
    hide Rotr, SmallSigma0;
  }

  lemma SmallSigma0Xors(x: bv32)
    ensures SmallSigma0(x) == Xor(Rotr(x, 7), Rotr(x, 18), x >> 3)
  {
    hide Rotr;
  }

  lemma SmallSigma1Is(x: bv32)
    ensures SmallSigma1(x) == ((x >> 17) | (x << 15)) ^ ((x >> 19) | (x << 13)) ^ (x >> 10)
  {
    Rotated17(x);
    Rotated19(x);
    assert SmallSigma1(x) == Xor(Rotr(x, 17), Rotr(x, 19), x >> 10) by {
      SmallSigma1Xors(x);
    }
    hide Rotr, SmallSigma1;
  }

  lemma SmallSigma1Xors(x: bv32)
    ensures SmallSigma1(x) == Xor(Rotr(x, 17), Rotr(x, 19), x >> 10)
  {
    hide Rotr;
  }

  // ---------- One round and one schedule word ----------

  /** The formulas of section 6.2.2 for one round, with every operation written out. */
  predicate Fits(a: bv32, b: bv32, c: bv32, d: bv32, e: bv32, f: bv32, g: bv32, h: bv32, k: bv32, w: bv32, a': bv32, e': bv32) {
    var s1 := ((e >> 6) | (e << 26)) ^ ((e >> 11) | (e << 21)) ^ ((e >> 25) | (e << 7));
    var s0 := ((a >> 2) | (a << 30)) ^ ((a >> 13) | (a << 19)) ^ ((a >> 22) | (a << 10));
    var t1 := Add(Add(Add(Add(h, s1), (e & f) ^ (!e & g)), k), w);
    e' == Add(d, t1) && a' == Add(t1, Add(s0, (a & b) ^ (a & c) ^ (b & c)))
  }

  lemma RoundFits(a: bv32, b: bv32, c: bv32, d: bv32, e: bv32, f: bv32, g: bv32, h: bv32, k: bv32, w: bv32, a': bv32, e': bv32)
    requires Fits(a, b, c, d, e, f, g, h, k, w, a', e')
    ensures Round(Hash(a, b, c, d, e, f, g, h), k, w) == Hash(a', a, b, c, e', e, f, g)
  {
    hide Add, BigSigma0, BigSigma1;
    BigSigma0Is(a);
    BigSigma1Is(e);
  }

  predicate IsConstant(t: nat, k: bv32) {
    t < 64 && K[t] == k
  }

  lemma Go(block: seq<bv8>, start: Hash, t: nat, a: bv32, b: bv32, c: bv32, d: bv32, e: bv32, f: bv32, g: bv32, h: bv32,
           k: bv32, w: bv32, a': bv32, e': bv32)
    requires |block| == 64 && t < 64 && Rounds(start, block, t) == Hash(a, b, c, d, e, f, g, h)
    requires IsConstant(t, k) && Word(block, t) == w && Fits(a, b, c, d, e, f, g, h, k, w, a', e')
    ensures Rounds(start, block, t + 1) == Hash(a', a, b, c, e', e, f, g)
  {
    hide Round, Fits, Word;
    RoundFits(a, b, c, d, e, f, g, h, k, w, a', e');
  }

  lemma RoundsBegin(block: seq<bv8>, start: Hash)
    requires |block| == 64
    ensures Rounds(start, block, 0) == start
  {
  }

  lemma AddIs(x: bv32, y: bv32, z: bv32)
    requires x + y == z
    ensures Add(x, y) == z
  {
  }

  /** Four rounds. */
  lemma Go4(block: seq<bv8>, start: Hash, t: nat, a: bv32, b: bv32, c: bv32, d: bv32, e: bv32, f: bv32, g: bv32, h: bv32,
            k0: bv32, k1: bv32, k2: bv32, k3: bv32, w0: bv32, w1: bv32, w2: bv32, w3: bv32,
            a1: bv32, e1: bv32, a2: bv32, e2: bv32, a3: bv32, e3: bv32, a4: bv32, e4: bv32)
    requires |block| == 64 && t < 61 && Rounds(start, block, t) == Hash(a, b, c, d, e, f, g, h)
    requires IsConstant(t, k0) && IsConstant(t + 1, k1) && IsConstant(t + 2, k2) && IsConstant(t + 3, k3)
    requires Word(block, t) == w0 && Word(block, t + 1) == w1 && Word(block, t + 2) == w2 && Word(block, t + 3) == w3
    requires Fits(a, b, c, d, e, f, g, h, k0, w0, a1, e1) && Fits(a1, a, b, c, e1, e, f, g, k1, w1, a2, e2)
    requires Fits(a2, a1, a, b, e2, e1, e, f, k2, w2, a3, e3) && Fits(a3, a2, a1, a, e3, e2, e1, e, k3, w3, a4, e4)
    ensures Rounds(start, block, t + 4) == Hash(a4, a3, a2, a1, e4, e3, e2, e1)
  {
    hide Fits, Word, Rounds;
    Go(block, start, t, a, b, c, d, e, f, g, h, k0, w0, a1, e1);
    Go(block, start, t + 1, a1, a, b, c, e1, e, f, g, k1, w1, a2, e2);
    Go(block, start, t + 2, a2, a1, a, b, e2, e1, e, f, k2, w2, a3, e3);
    Go(block, start, t + 3, a3, a2, a1, a, e3, e2, e1, e, k3, w3, a4, e4);
  }

  predicate Follows(w2: bv32, w7: bv32, w15: bv32, w16: bv32, w: bv32) {
    w == (((w2 >> 17) | (w2 << 15)) ^ ((w2 >> 19) | (w2 << 13)) ^ (w2 >> 10)) + w7
         + (((w15 >> 7) | (w15 << 25)) ^ ((w15 >> 18) | (w15 << 14)) ^ (w15 >> 3)) + w16
  }

  lemma Next(block: seq<bv8>, t: nat, w2: bv32, w7: bv32, w15: bv32, w16: bv32, w: bv32)
    requires |block| == 64 && 16 <= t < 64
    requires Word(block, t - 2) == w2 && Word(block, t - 7) == w7 && Word(block, t - 15) == w15 && Word(block, t - 16) == w16
    requires Follows(w2, w7, w15, w16, w)
    ensures Word(block, t) == w
  {
    SmallSigma1Is(w2);
    SmallSigma0Is(w15);
    hide SmallSigma0, SmallSigma1;
  }

  /** Words t to t + 3. */
  lemma Next4(block: seq<bv8>, t: nat, w16: bv32, w15: bv32, w14: bv32, w13: bv32, w12: bv32, w7: bv32, w6: bv32, w5: bv32,
              w4: bv32, w2: bv32, w1: bv32, n0: bv32, n1: bv32, n2: bv32, n3: bv32)
    requires |block| == 64 && 16 <= t < 61
    requires Word(block, t - 16) == w16 && Word(block, t - 15) == w15 && Word(block, t - 14) == w14 && Word(block, t - 13) == w13
    requires Word(block, t - 12) == w12 && Word(block, t - 7) == w7 && Word(block, t - 6) == w6 && Word(block, t - 5) == w5
    requires Word(block, t - 4) == w4 && Word(block, t - 2) == w2 && Word(block, t - 1) == w1
    requires Follows(w2, w7, w15, w16, n0) && Follows(w1, w6, w14, w15, n1)
    requires Follows(n0, w5, w13, w14, n2) && Follows(n1, w4, w12, w13, n3)
    ensures Word(block, t) == n0 && Word(block, t + 1) == n1 && Word(block, t + 2) == n2 && Word(block, t + 3) == n3
  {
    hide Word, Follows;
    Next(block, t, w2, w7, w15, w16, n0);
    Next(block, t + 1, w1, w6, w14, w15, n1);
    Next(block, t + 2, n0, w5, w13, w14, n2);
    Next(block, t + 3, n1, w4, w12, w13, n3);
  }

  predicate Sixteen(block: seq<bv8>, t: nat, w0: bv32, w1: bv32, w2: bv32, w3: bv32, w4: bv32, w5: bv32, w6: bv32, w7: bv32,
                    w8: bv32, w9: bv32, w10: bv32, w11: bv32, w12: bv32, w13: bv32, w14: bv32, w15: bv32) {
    && |block| == 64 && t <= 48
    && Word(block, t) == w0 && Word(block, t + 1) == w1 && Word(block, t + 2) == w2 && Word(block, t + 3) == w3
    && Word(block, t + 4) == w4 && Word(block, t + 5) == w5 && Word(block, t + 6) == w6 && Word(block, t + 7) == w7
    && Word(block, t + 8) == w8 && Word(block, t + 9) == w9 && Word(block, t + 10) == w10 && Word(block, t + 11) == w11
    && Word(block, t + 12) == w12 && Word(block, t + 13) == w13 && Word(block, t + 14) == w14 && Word(block, t + 15) == w15
  }

  lemma Constants0()
    ensures IsConstant(0, 0x428a2f98) && IsConstant(1, 0x71374491) && IsConstant(2, 0xb5c0fbcf) && IsConstant(3, 0xe9b5dba5)
    ensures IsConstant(4, 0x3956c25b) && IsConstant(5, 0x59f111f1) && IsConstant(6, 0x923f82a4) && IsConstant(7, 0xab1c5ed5)
  {
  }

  lemma Constants1()
    ensures IsConstant(8, 0xd807aa98) && IsConstant(9, 0x12835b01) && IsConstant(10, 0x243185be) && IsConstant(11, 0x550c7dc3)
    ensures IsConstant(12, 0x72be5d74) && IsConstant(13, 0x80deb1fe) && IsConstant(14, 0x9bdc06a7) && IsConstant(15, 0xc19bf174)
  {
  }

  lemma Constants2()
    ensures IsConstant(16, 0xe49b69c1) && IsConstant(17, 0xefbe4786) && IsConstant(18, 0x0fc19dc6) && IsConstant(19, 0x240ca1cc)
    ensures IsConstant(20, 0x2de92c6f) && IsConstant(21, 0x4a7484aa) && IsConstant(22, 0x5cb0a9dc) && IsConstant(23, 0x76f988da)
  {
  }

  lemma Constants3()
    ensures IsConstant(24, 0x983e5152) && IsConstant(25, 0xa831c66d) && IsConstant(26, 0xb00327c8) && IsConstant(27, 0xbf597fc7)
    ensures IsConstant(28, 0xc6e00bf3) && IsConstant(29, 0xd5a79147) && IsConstant(30, 0x06ca6351) && IsConstant(31, 0x14292967)
  {
  }

  lemma Constants4()
    ensures IsConstant(32, 0x27b70a85) && IsConstant(33, 0x2e1b2138) && IsConstant(34, 0x4d2c6dfc) && IsConstant(35, 0x53380d13)
    ensures IsConstant(36, 0x650a7354) && IsConstant(37, 0x766a0abb) && IsConstant(38, 0x81c2c92e) && IsConstant(39, 0x92722c85)
  {
  }

  lemma Constants5()
    ensures IsConstant(40, 0xa2bfe8a1) && IsConstant(41, 0xa81a664b) && IsConstant(42, 0xc24b8b70) && IsConstant(43, 0xc76c51a3)
    ensures IsConstant(44, 0xd192e819) && IsConstant(45, 0xd6990624) && IsConstant(46, 0xf40e3585) && IsConstant(47, 0x106aa070)
  {
  }

  lemma Constants6()
    ensures IsConstant(48, 0x19a4c116) && IsConstant(49, 0x1e376c08) && IsConstant(50, 0x2748774c) && IsConstant(51, 0x34b0bcb5)
    ensures IsConstant(52, 0x391c0cb3) && IsConstant(53, 0x4ed8aa4a) && IsConstant(54, 0x5b9cca4f) && IsConstant(55, 0x682e6ff3)
  {
  }

  lemma Constants7()
    ensures IsConstant(56, 0x748f82ee) && IsConstant(57, 0x78a5636f) && IsConstant(58, 0x84c87814) && IsConstant(59, 0x8cc70208)
    ensures IsConstant(60, 0x90befffa) && IsConstant(61, 0xa4506ceb) && IsConstant(62, 0xbef9a3f7) && IsConstant(63, 0xc67178f2)
  {
  }

  // ---------- The constants, sections 4.2.2 and 5.3.3 ----------

  /** The first 64 primes. */
  const P0: seq<nat> := [2, 3, 5, 7, 11, 13, 17, 19]
  const P1: seq<nat> := [23, 29, 31, 37, 41, 43, 47, 53]
  const P2: seq<nat> := [59, 61, 67, 71, 73, 79, 83, 89]
  const P3: seq<nat> := [97, 101, 103, 107, 109, 113, 127, 131]
  const P4: seq<nat> := [137, 139, 149, 151, 157, 163, 167, 173]
  const P5: seq<nat> := [179, 181, 191, 193, 197, 199, 211, 223]
  const P6: seq<nat> := [227, 229, 233, 239, 241, 251, 257, 263]
  const P7: seq<nat> := [269, 271, 277, 281, 283, 293, 307, 311]

  const PRIMES: seq<nat> := P0 + P1 + P2 + P3 + P4 + P5 + P6 + P7

  predicate IsCubeRoot(x: nat, n: nat) {
    x * x * x <= n < (x + 1) * (x + 1) * (x + 1)
  }

  predicate IsSquareRoot(x: nat, n: nat) {
    x * x <= n < (x + 1) * (x + 1)
  }

  /** The first 32 bits of the fractional part of the cube root of p. */
  ghost predicate CubeRootBits(p: nat, bits: bv32) {
    exists whole: nat ::
      IsCubeRoot(whole, p) && IsCubeRoot(whole * 0x1_0000_0000 + bits as nat, p * 0x1_00000000_00000000_00000000)
  }

  /** The first 32 bits of the fractional part of the square root of p. */
  ghost predicate SquareRootBits(p: nat, bits: bv32) {
    exists whole: nat :: IsSquareRoot(whole, p) && IsSquareRoot(whole * 0x1_0000_0000 + bits as nat, p * 0x1_00000000_00000000)
  }

  lemma CubeRoot(p: nat, whole: nat, bits: bv32, x: nat)
    requires x == whole * 0x1_0000_0000 + bits as nat
    requires IsCubeRoot(whole, p) && IsCubeRoot(x, p * 0x1_00000000_00000000_00000000)
    ensures CubeRootBits(p, bits)
  {
    hide IsCubeRoot;
  }

  lemma SquareRoot(p: nat, whole: nat, bits: bv32, x: nat)
    requires x == whole * 0x1_0000_0000 + bits as nat
    requires IsSquareRoot(whole, p) && IsSquareRoot(x, p * 0x1_00000000_00000000)
    ensures SquareRootBits(p, bits)
  {
    hide IsSquareRoot;
  }

  lemma CubeRoots0()
    ensures forall i :: 0 <= i < 8 ==> CubeRootBits(PRIMES[i], K[i])
  {
    hide CubeRootBits;
    Constants0();
    CubeRoot(2, 1, 0x428a2f98, 0x1428a2f98);
    CubeRoot(3, 1, 0x71374491, 0x171374491);
    CubeRoot(5, 1, 0xb5c0fbcf, 0x1b5c0fbcf);
    CubeRoot(7, 1, 0xe9b5dba5, 0x1e9b5dba5);
    CubeRoot(11, 2, 0x3956c25b, 0x23956c25b);
    CubeRoot(13, 2, 0x59f111f1, 0x259f111f1);
    CubeRoot(17, 2, 0x923f82a4, 0x2923f82a4);
    CubeRoot(19, 2, 0xab1c5ed5, 0x2ab1c5ed5);
    assert PRIMES[0] == 2 && PRIMES[1] == 3 && PRIMES[2] == 5 && PRIMES[3] == 7;
    assert PRIMES[4] == 11 && PRIMES[5] == 13 && PRIMES[6] == 17 && PRIMES[7] == 19;
  }

  lemma CubeRoots1()
    ensures forall i :: 8 <= i < 16 ==> CubeRootBits(PRIMES[i], K[i])
  {
    hide CubeRootBits;
    Constants1();
    CubeRoot(23, 2, 0xd807aa98, 0x2d807aa98);
    CubeRoot(29, 3, 0x12835b01, 0x312835b01);
    CubeRoot(31, 3, 0x243185be, 0x3243185be);
    CubeRoot(37, 3, 0x550c7dc3, 0x3550c7dc3);
    CubeRoot(41, 3, 0x72be5d74, 0x372be5d74);
    CubeRoot(43, 3, 0x80deb1fe, 0x380deb1fe);
    CubeRoot(47, 3, 0x9bdc06a7, 0x39bdc06a7);
    CubeRoot(53, 3, 0xc19bf174, 0x3c19bf174);
    assert PRIMES[8] == 23 && PRIMES[9] == 29 && PRIMES[10] == 31 && PRIMES[11] == 37;
    assert PRIMES[12] == 41 && PRIMES[13] == 43 && PRIMES[14] == 47 && PRIMES[15] == 53;
  }

  lemma CubeRoots2()
    ensures forall i :: 16 <= i < 24 ==> CubeRootBits(PRIMES[i], K[i])
  {
    hide CubeRootBits;
    Constants2();
    CubeRoot(59, 3, 0xe49b69c1, 0x3e49b69c1);
    CubeRoot(61, 3, 0xefbe4786, 0x3efbe4786);
    CubeRoot(67, 4, 0x0fc19dc6, 0x40fc19dc6);
    CubeRoot(71, 4, 0x240ca1cc, 0x4240ca1cc);
    CubeRoot(73, 4, 0x2de92c6f, 0x42de92c6f);
    CubeRoot(79, 4, 0x4a7484aa, 0x44a7484aa);
    CubeRoot(83, 4, 0x5cb0a9dc, 0x45cb0a9dc);
    CubeRoot(89, 4, 0x76f988da, 0x476f988da);
    assert PRIMES[16] == 59 && PRIMES[17] == 61 && PRIMES[18] == 67 && PRIMES[19] == 71;
    assert PRIMES[20] == 73 && PRIMES[21] == 79 && PRIMES[22] == 83 && PRIMES[23] == 89;
  }

  lemma CubeRoots3()
    ensures forall i :: 24 <= i < 32 ==> CubeRootBits(PRIMES[i], K[i])
  {
    hide CubeRootBits;
    Constants3();
    CubeRoot(97, 4, 0x983e5152, 0x4983e5152);
    CubeRoot(101, 4, 0xa831c66d, 0x4a831c66d);
    CubeRoot(103, 4, 0xb00327c8, 0x4b00327c8);
    CubeRoot(107, 4, 0xbf597fc7, 0x4bf597fc7);
    CubeRoot(109, 4, 0xc6e00bf3, 0x4c6e00bf3);
    CubeRoot(113, 4, 0xd5a79147, 0x4d5a79147);
    CubeRoot(127, 5, 0x06ca6351, 0x506ca6351);
    CubeRoot(131, 5, 0x14292967, 0x514292967);
    assert PRIMES[24] == 97 && PRIMES[25] == 101 && PRIMES[26] == 103 && PRIMES[27] == 107;
    assert PRIMES[28] == 109 && PRIMES[29] == 113 && PRIMES[30] == 127 && PRIMES[31] == 131;
  }

  lemma CubeRoots4()
    ensures forall i :: 32 <= i < 40 ==> CubeRootBits(PRIMES[i], K[i])
  {
    hide CubeRootBits;
    Constants4();
    CubeRoot(137, 5, 0x27b70a85, 0x527b70a85);
    CubeRoot(139, 5, 0x2e1b2138, 0x52e1b2138);
    CubeRoot(149, 5, 0x4d2c6dfc, 0x54d2c6dfc);
    CubeRoot(151, 5, 0x53380d13, 0x553380d13);
    CubeRoot(157, 5, 0x650a7354, 0x5650a7354);
    CubeRoot(163, 5, 0x766a0abb, 0x5766a0abb);
    CubeRoot(167, 5, 0x81c2c92e, 0x581c2c92e);
    CubeRoot(173, 5, 0x92722c85, 0x592722c85);
    assert PRIMES[32] == 137 && PRIMES[33] == 139 && PRIMES[34] == 149 && PRIMES[35] == 151;
    assert PRIMES[36] == 157 && PRIMES[37] == 163 && PRIMES[38] == 167 && PRIMES[39] == 173;
  }

  lemma CubeRoots5()
    ensures forall i :: 40 <= i < 48 ==> CubeRootBits(PRIMES[i], K[i])
  {
    hide CubeRootBits;
    Constants5();
    CubeRoot(179, 5, 0xa2bfe8a1, 0x5a2bfe8a1);
    CubeRoot(181, 5, 0xa81a664b, 0x5a81a664b);
    CubeRoot(191, 5, 0xc24b8b70, 0x5c24b8b70);
    CubeRoot(193, 5, 0xc76c51a3, 0x5c76c51a3);
    CubeRoot(197, 5, 0xd192e819, 0x5d192e819);
    CubeRoot(199, 5, 0xd6990624, 0x5d6990624);
    CubeRoot(211, 5, 0xf40e3585, 0x5f40e3585);
    CubeRoot(223, 6, 0x106aa070, 0x6106aa070);
    assert PRIMES[40] == 179 && PRIMES[41] == 181 && PRIMES[42] == 191 && PRIMES[43] == 193;
    assert PRIMES[44] == 197 && PRIMES[45] == 199 && PRIMES[46] == 211 && PRIMES[47] == 223;
  }

  lemma CubeRoots6()
    ensures forall i :: 48 <= i < 56 ==> CubeRootBits(PRIMES[i], K[i])
  {
    hide CubeRootBits;
    Constants6();
    CubeRoot(227, 6, 0x19a4c116, 0x619a4c116);
    CubeRoot(229, 6, 0x1e376c08, 0x61e376c08);
    CubeRoot(233, 6, 0x2748774c, 0x62748774c);
    CubeRoot(239, 6, 0x34b0bcb5, 0x634b0bcb5);
    CubeRoot(241, 6, 0x391c0cb3, 0x6391c0cb3);
    CubeRoot(251, 6, 0x4ed8aa4a, 0x64ed8aa4a);
    CubeRoot(257, 6, 0x5b9cca4f, 0x65b9cca4f);
    CubeRoot(263, 6, 0x682e6ff3, 0x6682e6ff3);
    assert PRIMES[48] == 227 && PRIMES[49] == 229 && PRIMES[50] == 233 && PRIMES[51] == 239;
    assert PRIMES[52] == 241 && PRIMES[53] == 251 && PRIMES[54] == 257 && PRIMES[55] == 263;
  }

  lemma CubeRoots7()
    ensures forall i :: 56 <= i < 64 ==> CubeRootBits(PRIMES[i], K[i])
  {
    hide CubeRootBits;
    Constants7();
    CubeRoot(269, 6, 0x748f82ee, 0x6748f82ee);
    CubeRoot(271, 6, 0x78a5636f, 0x678a5636f);
    CubeRoot(277, 6, 0x84c87814, 0x684c87814);
    CubeRoot(281, 6, 0x8cc70208, 0x68cc70208);
    CubeRoot(283, 6, 0x90befffa, 0x690befffa);
    CubeRoot(293, 6, 0xa4506ceb, 0x6a4506ceb);
    CubeRoot(307, 6, 0xbef9a3f7, 0x6bef9a3f7);
    CubeRoot(311, 6, 0xc67178f2, 0x6c67178f2);
    assert PRIMES[56] == 269 && PRIMES[57] == 271 && PRIMES[58] == 277 && PRIMES[59] == 281;
    assert PRIMES[60] == 283 && PRIMES[61] == 293 && PRIMES[62] == 307 && PRIMES[63] == 311;
  }

  /** The round constants are the cube roots of the first 64 primes, the initial hash value the square roots of the first 8. */
  lemma ConstantsAreRoots()
    ensures forall i :: 0 <= i < 64 ==> CubeRootBits(PRIMES[i], K[i])
    ensures SquareRootBits(2, INITIAL.a) && SquareRootBits(3, INITIAL.b) && SquareRootBits(5, INITIAL.c)
    ensures SquareRootBits(7, INITIAL.d) && SquareRootBits(11, INITIAL.e) && SquareRootBits(13, INITIAL.f)
    ensures SquareRootBits(17, INITIAL.g) && SquareRootBits(19, INITIAL.h)
  {
    hide CubeRootBits, SquareRootBits;
    CubeRoots0();
    CubeRoots1();
    CubeRoots2();
    CubeRoots3();
    CubeRoots4();
    CubeRoots5();
    CubeRoots6();
    CubeRoots7();
    SquareRoot(2, 1, 0x6a09e667, 0x16a09e667);
    SquareRoot(3, 1, 0xbb67ae85, 0x1bb67ae85);
    SquareRoot(5, 2, 0x3c6ef372, 0x23c6ef372);
    SquareRoot(7, 2, 0xa54ff53a, 0x2a54ff53a);
    SquareRoot(11, 3, 0x510e527f, 0x3510e527f);
    SquareRoot(13, 3, 0x9b05688c, 0x39b05688c);
    SquareRoot(17, 4, 0x1f83d9ab, 0x41f83d9ab);
    SquareRoot(19, 4, 0x5be0cd19, 0x45be0cd19);
  }

  // ---------- Padding ----------

  lemma {:induction false} ZeroBytes(n: nat)
    ensures forall i :: 0 <= i < n ==> ToLe(0, n)[i] == 0
  {
    if n > 0 {
      ZeroBytes(n - 1);
    }
  }

  /** The length of a short message as the length bytes of section 5.1.1. */
  lemma LengthBytesAre(bits: nat)
    requires bits == 24 || bits == 512
    ensures LengthBytes(bits) == if bits == 24 then [0, 0, 0, 0, 0, 0, 0, 24] else [0, 0, 0, 0, 0, 0, 2, 0]
  {
    hide ToLe;
    TwoBytes(bits);
  }

  lemma TwoBytes(bits: nat)
    requires bits < 65536
    ensures var s := ToLe(bits, 8);
            s[0] == bits % 256 && s[1] == bits / 256 && forall i :: 2 <= i < 8 ==> s[i] == 0
  {
    var n := bits / 256;
    assert n % 256 == n && n / 256 == 0;
    assert ToLe(bits, 8) == [bits % 256] + ToLe(n, 7);
    assert ToLe(n, 7) == [n] + ToLe(0, 6);
    ZeroBytes(6);
    hide ToLe;
  }

  lemma PaddingIs(length: nat, zeros: nat)
    requires zeros == ZeroCount(length)
    ensures var s := Padding(length);
            && |s| == zeros + 9 && s[0] == 0x80 && (forall i :: 1 <= i <= zeros ==> s[i] == 0)
            && s[zeros + 1..] == LengthBytes(8 * length)
  {
    hide LengthBytes, ZeroCount;
  }

  lemma WordIs(block: seq<bv8>, t: nat, bytes: seq<bv8>, w: bv32)
    requires |block| == 64 && t < 16 && |bytes| == 4 && block[4 * t..4 * t + 4] == bytes && w == BigEndian(bytes)
    ensures Word(block, t) == w
  {
  }

  lemma ZeroWords(block: seq<bv8>, from: nat)
    requires |block| == 64 && forall i :: 4 * from <= i < 56 ==> block[i] == 0
    ensures forall t :: from <= t < 14 ==> Word(block, t) == 0
  {
    hide Word;
    forall t | from <= t < 14
      ensures Word(block, t) == 0
    {
      WordIs(block, t, [0, 0, 0, 0], 0);
    }
  }

  /** The last two words of a padded message are its length in bits. */
  lemma LengthWords(block: seq<bv8>, bits: nat)
    requires |block| == 64 && block[56..] == LengthBytes(bits) && (bits == 24 || bits == 512)
    ensures Word(block, 14) == 0 && Word(block, 15) == if bits == 24 then 24 else 512
  {
    hide Word, BigEndian;
    LengthBytesAre(bits);
    var s := LengthBytes(bits);
    var last: seq<bv8> := if bits == 24 then [0, 0, 0, 24] else [0, 0, 2, 0];
    assert block[56..60] == s[..4] == [0, 0, 0, 0];
    assert block[60..64] == s[4..] == last;
    LastWords();
    WordIs(block, 14, [0, 0, 0, 0], 0);
    WordIs(block, 15, last, if bits == 24 then 24 else 512);
  }

  lemma LastWords()
    ensures BigEndian([0, 0, 0, 0]) == 0 && BigEndian([0, 0, 0, 24]) == 24 && BigEndian([0, 0, 2, 0]) == 512
  {
  }

  lemma BytesAre(v: bv32, s: seq<bv8>)
    requires |s| == 4 && s[0] as bv32 == v >> 24 && s[1] as bv32 == (v >> 16) & 0xff
    requires s[2] as bv32 == (v >> 8) & 0xff && s[3] as bv32 == v & 0xff
    ensures ToBigEndian(v) == s
  {
    assert (v >> 24) & 0xff == v >> 24;
  }

  // ---------- The digest of "abc" ----------

  lemma AbcWords(block: seq<bv8>)
    requires Sixteen(block, 0, 0x61626380, 0x00000000, 0x00000000, 0x00000000, 0x00000000, 0x00000000, 0x00000000,
                               0x00000000, 0x00000000, 0x00000000, 0x00000000, 0x00000000, 0x00000000, 0x00000000,
                               0x00000000, 0x00000018)
    ensures Sixteen(block, 16, 0x61626380, 0x000f0000, 0x7da86405, 0x600003c6, 0x3e9d7b78, 0x0183fc00, 0x12dcbfdb,
                               0xe2e2c38e, 0xc8215c1a, 0xb73679a2, 0xe5bc3909, 0x32663c5b, 0x9d209d67, 0xec8726cb,
                               0x702138a4, 0xd3b7973b)
    ensures Sixteen(block, 32, 0x93f5997f, 0x3b68ba73, 0xaff4ffc1, 0xf10a5c62, 0x0a8b3996, 0x72af830a, 0x9409e33e,
                               0x24641522, 0x9f47bf94, 0xf0a64f5a, 0x3e246a79, 0x27333ba3, 0x0c4763f2, 0x840abf27,
                               0x7a290d5d, 0x065c43da)
    ensures Sixteen(block, 48, 0xfb3e89cb, 0xcc7617db, 0xb9e66c34, 0xa9993667, 0x84badedd, 0xc21462bc, 0x1487472c,
                               0xb20f7a99, 0xef57b9cd, 0xebe6b238, 0x9fe3095e, 0x78bc8d4b, 0xa43fcf15, 0x668b2ff8,
                               0xeeaba2cc, 0x12b1edeb)
  {
    hide Word;
    Next4(block, 16, 0x61626380, 0x00000000, 0x00000000, 0x00000000, 0x00000000, 0x00000000, 0x00000000, 0x00000000,
          0x00000000, 0x00000000, 0x00000018, 0x61626380, 0x000f0000, 0x7da86405, 0x600003c6);
    Next4(block, 20, 0x00000000, 0x00000000, 0x00000000, 0x00000000, 0x00000000, 0x00000000, 0x00000000, 0x00000018,
          0x61626380, 0x7da86405, 0x600003c6, 0x3e9d7b78, 0x0183fc00, 0x12dcbfdb, 0xe2e2c38e);
    Next4(block, 24, 0x00000000, 0x00000000, 0x00000000, 0x00000000, 0x00000000, 0x000f0000, 0x7da86405, 0x600003c6,
          0x3e9d7b78, 0x12dcbfdb, 0xe2e2c38e, 0xc8215c1a, 0xb73679a2, 0xe5bc3909, 0x32663c5b);
    Next4(block, 28, 0x00000000, 0x00000000, 0x00000000, 0x00000018, 0x61626380, 0x0183fc00, 0x12dcbfdb, 0xe2e2c38e,
          0xc8215c1a, 0xe5bc3909, 0x32663c5b, 0x9d209d67, 0xec8726cb, 0x702138a4, 0xd3b7973b);
    Next4(block, 32, 0x61626380, 0x000f0000, 0x7da86405, 0x600003c6, 0x3e9d7b78, 0xb73679a2, 0xe5bc3909, 0x32663c5b,
          0x9d209d67, 0x702138a4, 0xd3b7973b, 0x93f5997f, 0x3b68ba73, 0xaff4ffc1, 0xf10a5c62);
    Next4(block, 36, 0x3e9d7b78, 0x0183fc00, 0x12dcbfdb, 0xe2e2c38e, 0xc8215c1a, 0xec8726cb, 0x702138a4, 0xd3b7973b,
          0x93f5997f, 0xaff4ffc1, 0xf10a5c62, 0x0a8b3996, 0x72af830a, 0x9409e33e, 0x24641522);
    Next4(block, 40, 0xc8215c1a, 0xb73679a2, 0xe5bc3909, 0x32663c5b, 0x9d209d67, 0x3b68ba73, 0xaff4ffc1, 0xf10a5c62,
          0x0a8b3996, 0x9409e33e, 0x24641522, 0x9f47bf94, 0xf0a64f5a, 0x3e246a79, 0x27333ba3);
    Next4(block, 44, 0x9d209d67, 0xec8726cb, 0x702138a4, 0xd3b7973b, 0x93f5997f, 0x72af830a, 0x9409e33e, 0x24641522,
          0x9f47bf94, 0x3e246a79, 0x27333ba3, 0x0c4763f2, 0x840abf27, 0x7a290d5d, 0x065c43da);
    Next4(block, 48, 0x93f5997f, 0x3b68ba73, 0xaff4ffc1, 0xf10a5c62, 0x0a8b3996, 0xf0a64f5a, 0x3e246a79, 0x27333ba3,
          0x0c4763f2, 0x7a290d5d, 0x065c43da, 0xfb3e89cb, 0xcc7617db, 0xb9e66c34, 0xa9993667);
    Next4(block, 52, 0x0a8b3996, 0x72af830a, 0x9409e33e, 0x24641522, 0x9f47bf94, 0x840abf27, 0x7a290d5d, 0x065c43da,
          0xfb3e89cb, 0xb9e66c34, 0xa9993667, 0x84badedd, 0xc21462bc, 0x1487472c, 0xb20f7a99);
    Next4(block, 56, 0x9f47bf94, 0xf0a64f5a, 0x3e246a79, 0x27333ba3, 0x0c4763f2, 0xcc7617db, 0xb9e66c34, 0xa9993667,
          0x84badedd, 0x1487472c, 0xb20f7a99, 0xef57b9cd, 0xebe6b238, 0x9fe3095e, 0x78bc8d4b);
    Next4(block, 60, 0x0c4763f2, 0x840abf27, 0x7a290d5d, 0x065c43da, 0xfb3e89cb, 0xc21462bc, 0x1487472c, 0xb20f7a99,
          0xef57b9cd, 0x9fe3095e, 0x78bc8d4b, 0xa43fcf15, 0x668b2ff8, 0xeeaba2cc, 0x12b1edeb);
  }

  lemma AbcCompressed(block: seq<bv8>, start: Hash)
    requires Sixteen(block, 0, 0x61626380, 0x00000000, 0x00000000, 0x00000000, 0x00000000, 0x00000000, 0x00000000,
                               0x00000000, 0x00000000, 0x00000000, 0x00000000, 0x00000000, 0x00000000, 0x00000000,
                               0x00000000, 0x00000018)
    requires start == Hash(0x6a09e667, 0xbb67ae85, 0x3c6ef372, 0xa54ff53a, 0x510e527f, 0x9b05688c, 0x1f83d9ab, 0x5be0cd19)
    ensures Compress(start, block) == Hash(0xba7816bf, 0x8f01cfea, 0x414140de, 0x5dae2223, 0xb00361a3, 0x96177a9c, 0xb410ff61, 0xf20015ad)
  {
    hide Word, Rounds, IsConstant;
    RoundsBegin(block, start);
    AbcWords(block);
    Constants0();
    Constants1();
    Constants2();
    Constants3();
    Constants4();
    Constants5();
    Constants6();
    Constants7();
    Go4(block, start, 0, 0x6a09e667, 0xbb67ae85, 0x3c6ef372, 0xa54ff53a, 0x510e527f, 0x9b05688c, 0x1f83d9ab,
        0x5be0cd19, 0x428a2f98, 0x71374491, 0xb5c0fbcf, 0xe9b5dba5, 0x61626380, 0x00000000, 0x00000000, 0x00000000,
        0x5d6aebcd, 0xfa2a4622, 0x5a6ad9ad, 0x78ce7989, 0xc8c347a7, 0xf92939eb, 0xd550f666, 0x24e00850);
    Go4(block, start, 4, 0xd550f666, 0xc8c347a7, 0x5a6ad9ad, 0x5d6aebcd, 0x24e00850, 0xf92939eb, 0x78ce7989,
        0xfa2a4622, 0x3956c25b, 0x59f111f1, 0x923f82a4, 0xab1c5ed5, 0x00000000, 0x00000000, 0x00000000, 0x00000000,
        0x04409a6a, 0x43ada245, 0x2b4209f5, 0x714260ad, 0xe5030380, 0x9b27a401, 0x85a07b5f, 0x0c657a79);
    Go4(block, start, 8, 0x85a07b5f, 0xe5030380, 0x2b4209f5, 0x04409a6a, 0x0c657a79, 0x9b27a401, 0x714260ad,
        0x43ada245, 0xd807aa98, 0x12835b01, 0x243185be, 0x550c7dc3, 0x00000000, 0x00000000, 0x00000000, 0x00000000,
        0x8e04ecb9, 0x32ca2d8c, 0x8c87346b, 0x1cc92596, 0x4798a3f4, 0x436b23e8, 0xf71fc5a9, 0x816fd6e9);
    Go4(block, start, 12, 0xf71fc5a9, 0x4798a3f4, 0x8c87346b, 0x8e04ecb9, 0x816fd6e9, 0x436b23e8, 0x1cc92596,
        0x32ca2d8c, 0x72be5d74, 0x80deb1fe, 0x9bdc06a7, 0xc19bf174, 0x00000000, 0x00000000, 0x00000000, 0x00000018,
        0x87912990, 0x1e578218, 0xd932eb16, 0x745a48de, 0xc0645fde, 0x0b92f20c, 0xb0fa238e, 0x07590dcd);
    Go4(block, start, 16, 0xb0fa238e, 0xc0645fde, 0xd932eb16, 0x87912990, 0x07590dcd, 0x0b92f20c, 0x745a48de,
        0x1e578218, 0xe49b69c1, 0xefbe4786, 0x0fc19dc6, 0x240ca1cc, 0x61626380, 0x000f0000, 0x7da86405, 0x600003c6,
        0x21da9a9b, 0x8034229c, 0xc2fbd9d1, 0x846ee454, 0xfe777bbf, 0xcc899961, 0xe1f20c33, 0xb0638179);
    Go4(block, start, 20, 0xe1f20c33, 0xfe777bbf, 0xc2fbd9d1, 0x21da9a9b, 0xb0638179, 0xcc899961, 0x846ee454,
        0x8034229c, 0x2de92c6f, 0x4a7484aa, 0x5cb0a9dc, 0x76f988da, 0x3e9d7b78, 0x0183fc00, 0x12dcbfdb, 0xe2e2c38e,
        0x9dc68b63, 0x8ada8930, 0xc2606d6d, 0xe1257970, 0xa7a3623f, 0x49f5114a, 0xc5d53d8d, 0xaa47c347);
    Go4(block, start, 24, 0xc5d53d8d, 0xa7a3623f, 0xc2606d6d, 0x9dc68b63, 0xaa47c347, 0x49f5114a, 0xe1257970,
        0x8ada8930, 0x983e5152, 0xa831c66d, 0xb00327c8, 0xbf597fc7, 0xc8215c1a, 0xb73679a2, 0xe5bc3909, 0x32663c5b,
        0x1c2c2838, 0x2823ef91, 0xcde8037d, 0x14383d8e, 0xb62ec4bc, 0xc74c6516, 0x77d37528, 0xedffbff8);
    Go4(block, start, 28, 0x77d37528, 0xb62ec4bc, 0xcde8037d, 0x1c2c2838, 0xedffbff8, 0xc74c6516, 0x14383d8e,
        0x2823ef91, 0xc6e00bf3, 0xd5a79147, 0x06ca6351, 0x14292967, 0x9d209d67, 0xec8726cb, 0x702138a4, 0xd3b7973b,
        0x363482c9, 0x6112a3b7, 0xa0060b30, 0xade79437, 0xea992a22, 0x0109ab3a, 0x73b33bf5, 0xba591112);
    Go4(block, start, 32, 0x73b33bf5, 0xea992a22, 0xa0060b30, 0x363482c9, 0xba591112, 0x0109ab3a, 0xade79437,
        0x6112a3b7, 0x27b70a85, 0x2e1b2138, 0x4d2c6dfc, 0x53380d13, 0x93f5997f, 0x3b68ba73, 0xaff4ffc1, 0xf10a5c62,
        0x98e12507, 0x9cd9f5f6, 0xfe604df5, 0x59249dd3, 0xa9a7738c, 0x085f3833, 0x65a0cfe4, 0xf4b002d6);
    Go4(block, start, 36, 0x65a0cfe4, 0xa9a7738c, 0xfe604df5, 0x98e12507, 0xf4b002d6, 0x085f3833, 0x59249dd3,
        0x9cd9f5f6, 0x650a7354, 0x766a0abb, 0x81c2c92e, 0x92722c85, 0x0a8b3996, 0x72af830a, 0x9409e33e, 0x24641522,
        0x41a65cb1, 0x0772a26b, 0x34df1604, 0xa507a53d, 0x6dc57a8a, 0xf0781bc8, 0x79ea687a, 0x1efbc0a0);
    Go4(block, start, 40, 0x79ea687a, 0x6dc57a8a, 0x34df1604, 0x41a65cb1, 0x1efbc0a0, 0xf0781bc8, 0xa507a53d,
        0x0772a26b, 0xa2bfe8a1, 0xa81a664b, 0xc24b8b70, 0xc76c51a3, 0x9f47bf94, 0xf0a64f5a, 0x3e246a79, 0x27333ba3,
        0xd6670766, 0x26352d63, 0xdf46652f, 0x838b2711, 0x17aa0dfe, 0xdecd4715, 0x9d4baf93, 0xfda24c2e);
    Go4(block, start, 44, 0x9d4baf93, 0x17aa0dfe, 0xdf46652f, 0xd6670766, 0xfda24c2e, 0xdecd4715, 0x838b2711,
        0x26352d63, 0xd192e819, 0xd6990624, 0xf40e3585, 0x106aa070, 0x0c4763f2, 0x840abf27, 0x7a290d5d, 0x065c43da,
        0x26628815, 0xa80f11f0, 0x72ab4b91, 0xb7755da1, 0xa14c14b0, 0xd57b94a9, 0x4172328d, 0xfecf0bc6);
    Go4(block, start, 48, 0x4172328d, 0xa14c14b0, 0x72ab4b91, 0x26628815, 0xfecf0bc6, 0xd57b94a9, 0xb7755da1,
        0xa80f11f0, 0x19a4c116, 0x1e376c08, 0x2748774c, 0x34b0bcb5, 0xfb3e89cb, 0xcc7617db, 0xb9e66c34, 0xa9993667,
        0x05757ceb, 0xbd714038, 0xf11bfaa8, 0x6e5c390c, 0x7a0508a1, 0x52f1ccf7, 0x886e7a22, 0x49231c1e);
    Go4(block, start, 52, 0x886e7a22, 0x7a0508a1, 0xf11bfaa8, 0x05757ceb, 0x49231c1e, 0x52f1ccf7, 0x6e5c390c,
        0xbd714038, 0x391c0cb3, 0x4ed8aa4a, 0x5b9cca4f, 0x682e6ff3, 0x84badedd, 0xc21462bc, 0x1487472c, 0xb20f7a99,
        0x101fd28f, 0x529e7d00, 0xf5702fdb, 0x9f4787c3, 0x3ec45cdb, 0xe50e1b4f, 0x38cc9913, 0x54cb266b);
    Go4(block, start, 56, 0x38cc9913, 0x3ec45cdb, 0xf5702fdb, 0x101fd28f, 0x54cb266b, 0xe50e1b4f, 0x9f4787c3,
        0x529e7d00, 0x748f82ee, 0x78a5636f, 0x84c87814, 0x8cc70208, 0xef57b9cd, 0xebe6b238, 0x9fe3095e, 0x78bc8d4b,
        0xfcd1887b, 0x9b5e906c, 0xc062d46f, 0x7e44008e, 0xffb70472, 0x6d83bfc6, 0xb6ae8fff, 0xb21bad3d);
    Go4(block, start, 60, 0xb6ae8fff, 0xffb70472, 0xc062d46f, 0xfcd1887b, 0xb21bad3d, 0x6d83bfc6, 0x7e44008e,
        0x9b5e906c, 0x90befffa, 0xa4506ceb, 0xbef9a3f7, 0xc67178f2, 0xa43fcf15, 0x668b2ff8, 0xeeaba2cc, 0x12b1edeb,
        0xb85e2ce9, 0x961f4894, 0x04d24d6c, 0x948d25b6, 0xd39a2165, 0xfb121210, 0x506e3058, 0x5ef50f24);
    AddIs(0x6a09e667, 0x506e3058, 0xba7816bf);
    AddIs(0xbb67ae85, 0xd39a2165, 0x8f01cfea);
    AddIs(0x3c6ef372, 0x04d24d6c, 0x414140de);
    AddIs(0xa54ff53a, 0xb85e2ce9, 0x5dae2223);
    AddIs(0x510e527f, 0x5ef50f24, 0xb00361a3);
    AddIs(0x9b05688c, 0xfb121210, 0x96177a9c);
    AddIs(0x1f83d9ab, 0x948d25b6, 0xb410ff61);
    AddIs(0x5be0cd19, 0x961f4894, 0xf20015ad);
    hide Add;
  }

  lemma AbcBlock(block: seq<bv8>)
    requires block == [0x61, 0x62, 0x63] + Padding(3)
    ensures Sixteen(block, 0, 0x61626380, 0x00000000, 0x00000000, 0x00000000, 0x00000000, 0x00000000, 0x00000000,
                              0x00000000, 0x00000000, 0x00000000, 0x00000000, 0x00000000, 0x00000000, 0x00000000,
                              0x00000000, 0x00000018)
  {
    hide Word, Padding, ZeroCount;
    PaddingIs(3, 52);
    assert block[56..] == Padding(3)[53..];
    assert block[0..4] == [0x61, 0x62, 0x63, 0x80];
    WordIs(block, 0, [0x61, 0x62, 0x63, 0x80], 0x61626380);
    ZeroWords(block, 1);
    LengthWords(block, 24);
  }

  lemma AbcBytes()
    ensures DigestBytes(Hash(0xba7816bf, 0x8f01cfea, 0x414140de, 0x5dae2223, 0xb00361a3, 0x96177a9c, 0xb410ff61, 0xf20015ad))
         == [0xba, 0x78, 0x16, 0xbf] + [0x8f, 0x01, 0xcf, 0xea] + [0x41, 0x41, 0x40, 0xde] + [0x5d, 0xae, 0x22, 0x23]
            + [0xb0, 0x03, 0x61, 0xa3] + [0x96, 0x17, 0x7a, 0x9c] + [0xb4, 0x10, 0xff, 0x61] + [0xf2, 0x00, 0x15, 0xad]
  {
    hide ToBigEndian;
    BytesAre(0xba7816bf, [0xba, 0x78, 0x16, 0xbf]);
    BytesAre(0x8f01cfea, [0x8f, 0x01, 0xcf, 0xea]);
    BytesAre(0x414140de, [0x41, 0x41, 0x40, 0xde]);
    BytesAre(0x5dae2223, [0x5d, 0xae, 0x22, 0x23]);
    BytesAre(0xb00361a3, [0xb0, 0x03, 0x61, 0xa3]);
    BytesAre(0x96177a9c, [0x96, 0x17, 0x7a, 0x9c]);
    BytesAre(0xb410ff61, [0xb4, 0x10, 0xff, 0x61]);
    BytesAre(0xf20015ad, [0xf2, 0x00, 0x15, 0xad]);
  }

  /** The digest of "abc". */
  lemma DigestOfAbc()
    ensures Digest([0x61, 0x62, 0x63])
         == [0xba, 0x78, 0x16, 0xbf] + [0x8f, 0x01, 0xcf, 0xea] + [0x41, 0x41, 0x40, 0xde] + [0x5d, 0xae, 0x22, 0x23]
            + [0xb0, 0x03, 0x61, 0xa3] + [0x96, 0x17, 0x7a, 0x9c] + [0xb4, 0x10, 0xff, 0x61] + [0xf2, 0x00, 0x15, 0xad]
  {
    hide Compress, Padding, DigestBytes, Sixteen;
    var message := [0x61, 0x62, 0x63];
    var padded := message + Padding(3);
    AbcBlock(padded);
    AbcCompressed(padded, INITIAL);
    PaddingIs(3, 52);
    assert |message| == 3 && padded[..64] == padded && padded[64..] == [];
    assert Absorb(INITIAL, padded) == Absorb(Compress(INITIAL, padded), []);
    AbcBytes();
  }

  // ---------- The digest of two blocks ----------

  /** A message of one whole block, which is padded by another. */
  const LETTERS: seq<bv8> := seq(64, _ => 0x61)

  lemma FirstWords(block: seq<bv8>)
    requires Sixteen(block, 0, 0x61616161, 0x61616161, 0x61616161, 0x61616161, 0x61616161, 0x61616161, 0x61616161,
                               0x61616161, 0x61616161, 0x61616161, 0x61616161, 0x61616161, 0x61616161, 0x61616161,
                               0x61616161, 0x61616161)
    ensures Sixteen(block, 16, 0xf5fe3e3c, 0xf5fe3e3c, 0x325e1547, 0x325e1547, 0x21816259, 0x21816259, 0xf6e94e20,
                               0x8b862afb, 0x7d00364d, 0xfa768297, 0x48667e8b, 0xaac11a45, 0x0a204f10, 0x9d4236b5,
                               0xb206cf59, 0x24e7cbf6)
    ensures Sixteen(block, 32, 0x97bb3687, 0x68705df9, 0xe854b988, 0x50bd5067, 0x79787c0b, 0xe26c65b1, 0xba44d38d,
                               0x7a6111c9, 0x692a536e, 0x0dcd178c, 0xd5814de2, 0x8002d65e, 0x7144aacf, 0xa03e53ea,
                               0x06b2a892, 0x422c2043)
    ensures Sixteen(block, 48, 0x8f83ee50, 0xf4e2f28d, 0x83c84b33, 0xf00b98ae, 0xad7b406a, 0xe17d306c, 0x9e4f1014,
                               0x8d153877, 0x247dd0d2, 0x590f736c, 0x309f2fbc, 0x3fc5bb9f, 0x1aa4b3a7, 0x38409f61,
                               0xea3ab4f6, 0x0e77f61a)
  {
    hide Word;
    Next4(block, 16, 0x61616161, 0x61616161, 0x61616161, 0x61616161, 0x61616161, 0x61616161, 0x61616161, 0x61616161,
          0x61616161, 0x61616161, 0x61616161, 0xf5fe3e3c, 0xf5fe3e3c, 0x325e1547, 0x325e1547);
    Next4(block, 20, 0x61616161, 0x61616161, 0x61616161, 0x61616161, 0x61616161, 0x61616161, 0x61616161, 0x61616161,
          0xf5fe3e3c, 0x325e1547, 0x325e1547, 0x21816259, 0x21816259, 0xf6e94e20, 0x8b862afb);
    Next4(block, 24, 0x61616161, 0x61616161, 0x61616161, 0x61616161, 0x61616161, 0xf5fe3e3c, 0x325e1547, 0x325e1547,
          0x21816259, 0xf6e94e20, 0x8b862afb, 0x7d00364d, 0xfa768297, 0x48667e8b, 0xaac11a45);
    Next4(block, 28, 0x61616161, 0x61616161, 0x61616161, 0x61616161, 0xf5fe3e3c, 0x21816259, 0xf6e94e20, 0x8b862afb,
          0x7d00364d, 0x48667e8b, 0xaac11a45, 0x0a204f10, 0x9d4236b5, 0xb206cf59, 0x24e7cbf6);
    Next4(block, 32, 0xf5fe3e3c, 0xf5fe3e3c, 0x325e1547, 0x325e1547, 0x21816259, 0xfa768297, 0x48667e8b, 0xaac11a45,
          0x0a204f10, 0xb206cf59, 0x24e7cbf6, 0x97bb3687, 0x68705df9, 0xe854b988, 0x50bd5067);
    Next4(block, 36, 0x21816259, 0x21816259, 0xf6e94e20, 0x8b862afb, 0x7d00364d, 0x9d4236b5, 0xb206cf59, 0x24e7cbf6,
          0x97bb3687, 0xe854b988, 0x50bd5067, 0x79787c0b, 0xe26c65b1, 0xba44d38d, 0x7a6111c9);
    Next4(block, 40, 0x7d00364d, 0xfa768297, 0x48667e8b, 0xaac11a45, 0x0a204f10, 0x68705df9, 0xe854b988, 0x50bd5067,
          0x79787c0b, 0xba44d38d, 0x7a6111c9, 0x692a536e, 0x0dcd178c, 0xd5814de2, 0x8002d65e);
    Next4(block, 44, 0x0a204f10, 0x9d4236b5, 0xb206cf59, 0x24e7cbf6, 0x97bb3687, 0xe26c65b1, 0xba44d38d, 0x7a6111c9,
          0x692a536e, 0xd5814de2, 0x8002d65e, 0x7144aacf, 0xa03e53ea, 0x06b2a892, 0x422c2043);
    Next4(block, 48, 0x97bb3687, 0x68705df9, 0xe854b988, 0x50bd5067, 0x79787c0b, 0x0dcd178c, 0xd5814de2, 0x8002d65e,
          0x7144aacf, 0x06b2a892, 0x422c2043, 0x8f83ee50, 0xf4e2f28d, 0x83c84b33, 0xf00b98ae);
    Next4(block, 52, 0x79787c0b, 0xe26c65b1, 0xba44d38d, 0x7a6111c9, 0x692a536e, 0xa03e53ea, 0x06b2a892, 0x422c2043,
          0x8f83ee50, 0x83c84b33, 0xf00b98ae, 0xad7b406a, 0xe17d306c, 0x9e4f1014, 0x8d153877);
    Next4(block, 56, 0x692a536e, 0x0dcd178c, 0xd5814de2, 0x8002d65e, 0x7144aacf, 0xf4e2f28d, 0x83c84b33, 0xf00b98ae,
          0xad7b406a, 0x9e4f1014, 0x8d153877, 0x247dd0d2, 0x590f736c, 0x309f2fbc, 0x3fc5bb9f);
    Next4(block, 60, 0x7144aacf, 0xa03e53ea, 0x06b2a892, 0x422c2043, 0x8f83ee50, 0xe17d306c, 0x9e4f1014, 0x8d153877,
          0x247dd0d2, 0x309f2fbc, 0x3fc5bb9f, 0x1aa4b3a7, 0x38409f61, 0xea3ab4f6, 0x0e77f61a);
  }

  lemma FirstCompressed(block: seq<bv8>, start: Hash)
    requires Sixteen(block, 0, 0x61616161, 0x61616161, 0x61616161, 0x61616161, 0x61616161, 0x61616161, 0x61616161,
                               0x61616161, 0x61616161, 0x61616161, 0x61616161, 0x61616161, 0x61616161, 0x61616161,
                               0x61616161, 0x61616161)
    requires start == Hash(0x6a09e667, 0xbb67ae85, 0x3c6ef372, 0xa54ff53a, 0x510e527f, 0x9b05688c, 0x1f83d9ab, 0x5be0cd19)
    ensures Compress(start, block) == Hash(0xdf5bb81c, 0xe81e0626, 0xfb45a894, 0x4fd40f31, 0xb25e6816, 0xd6d499c1, 0xab904929, 0x00635e66)
  {
    hide Word, Rounds, IsConstant;
    RoundsBegin(block, start);
    FirstWords(block);
    Constants0();
    Constants1();
    Constants2();
    Constants3();
    Constants4();
    Constants5();
    Constants6();
    Constants7();
    Go4(block, start, 0, 0x6a09e667, 0xbb67ae85, 0x3c6ef372, 0xa54ff53a, 0x510e527f, 0x9b05688c, 0x1f83d9ab,
        0x5be0cd19, 0x428a2f98, 0x71374491, 0xb5c0fbcf, 0xe9b5dba5, 0x61616161, 0x61616161, 0x61616161, 0x61616161,
        0x5d69e9ae, 0xfa294403, 0xd756e0e9, 0x1acdbd63, 0xdc6c7169, 0x0f71992f, 0xe27d66a9, 0x218a12df);
    Go4(block, start, 4, 0xe27d66a9, 0xdc6c7169, 0xd756e0e9, 0x5d69e9ae, 0x218a12df, 0x0f71992f, 0x1acdbd63,
        0xfa294403, 0x3956c25b, 0x59f111f1, 0x923f82a4, 0xab1c5ed5, 0x61616161, 0x61616161, 0x61616161, 0x61616161,
        0x2159ea38, 0xeffc8535, 0xa5a6d334, 0x5e40c130, 0x06ed920b, 0x165bd5cf, 0xe3d72a18, 0xb8bb3e94);
    Go4(block, start, 8, 0xe3d72a18, 0x06ed920b, 0xa5a6d334, 0x2159ea38, 0xb8bb3e94, 0x165bd5cf, 0x5e40c130,
        0xeffc8535, 0xd807aa98, 0x12835b01, 0x243185be, 0x550c7dc3, 0x61616161, 0x61616161, 0x61616161, 0x61616161,
        0x3a2e625b, 0x7f0602cb, 0x8ade39b2, 0xa7bac5be, 0x2dbdf765, 0x72084ca0, 0xe2718c98, 0x93eebebd);
    Go4(block, start, 12, 0xe2718c98, 0x2dbdf765, 0x8ade39b2, 0x3a2e625b, 0x93eebebd, 0x72084ca0, 0xa7bac5be,
        0x7f0602cb, 0x72be5d74, 0x80deb1fe, 0x9bdc06a7, 0xc19bf174, 0x61616161, 0x61616161, 0x61616161, 0x61616161,
        0xa54779f9, 0x9a0f0b81, 0x4ed8f589, 0x78c61e72, 0xf19404f2, 0x9cd59020, 0x7018c642, 0xa0d49687);
    Go4(block, start, 16, 0x7018c642, 0xf19404f2, 0x4ed8f589, 0xa54779f9, 0xa0d49687, 0x9cd59020, 0x78c61e72,
        0x9a0f0b81, 0xe49b69c1, 0xefbe4786, 0x0fc19dc6, 0x240ca1cc, 0xf5fe3e3c, 0xf5fe3e3c, 0x325e1547, 0x325e1547,
        0x2f60d45e, 0x9702d0ff, 0x63a7c48b, 0x96f7bf16, 0x1f0fe4e0, 0x49e263f6, 0x337995a5, 0x551a15e2);
    Go4(block, start, 20, 0x337995a5, 0x1f0fe4e0, 0x63a7c48b, 0x2f60d45e, 0x551a15e2, 0x49e263f6, 0x96f7bf16,
        0x9702d0ff, 0x2de92c6f, 0x4a7484aa, 0x5cb0a9dc, 0x76f988da, 0x21816259, 0x21816259, 0xf6e94e20, 0x8b862afb,
        0x9d3a7505, 0x91ca1a5a, 0x6622acec, 0x83d818ec, 0xe26cc7b8, 0xd5e9cb3d, 0xd9da0dd1, 0x70e5fcc9);
    Go4(block, start, 24, 0xd9da0dd1, 0xe26cc7b8, 0x6622acec, 0x9d3a7505, 0x70e5fcc9, 0xd5e9cb3d, 0x83d818ec,
        0x91ca1a5a, 0x983e5152, 0xa831c66d, 0xb00327c8, 0xbf597fc7, 0x7d00364d, 0xfa768297, 0x48667e8b, 0xaac11a45,
        0x9c4ff2d5, 0xe650cf1f, 0xf32f457b, 0xb28ee1db, 0x06d2c3e6, 0xa5ee9de5, 0x06e83291, 0x74e75df7);
    Go4(block, start, 28, 0x06e83291, 0x06d2c3e6, 0xf32f457b, 0x9c4ff2d5, 0x74e75df7, 0xa5ee9de5, 0xb28ee1db,
        0xe650cf1f, 0xc6e00bf3, 0xd5a79147, 0x06ca6351, 0x14292967, 0x0a204f10, 0x9d4236b5, 0xb206cf59, 0x24e7cbf6,
        0xebb6a626, 0x0b23d50a, 0x3b248821, 0xd61ebb64, 0x3bc7d354, 0x79157559, 0x0b64dc85, 0x4b8912ee);
    Go4(block, start, 32, 0x0b64dc85, 0x3bc7d354, 0x3b248821, 0xebb6a626, 0x4b8912ee, 0x79157559, 0xd61ebb64,
        0x0b23d50a, 0x27b70a85, 0x2e1b2138, 0x4d2c6dfc, 0x53380d13, 0x97bb3687, 0x68705df9, 0xe854b988, 0x50bd5067,
        0x390441d9, 0xb3d297d0, 0x96971437, 0x44e70dd3, 0x72aca2d1, 0x7b2671a1, 0xfea01eda, 0xded50273);
    Go4(block, start, 36, 0xfea01eda, 0x72aca2d1, 0x96971437, 0x390441d9, 0xded50273, 0x7b2671a1, 0x44e70dd3,
        0xb3d297d0, 0x650a7354, 0x766a0abb, 0x81c2c92e, 0x92722c85, 0x79787c0b, 0xe26c65b1, 0xba44d38d, 0x7a6111c9,
        0x97a5fc35, 0x11018def, 0xa39f937d, 0x2fdcd467, 0xcb4cfd59, 0xf90cf300, 0x29aeaf77, 0xf8d8ceb8);
    Go4(block, start, 40, 0x29aeaf77, 0xcb4cfd59, 0xa39f937d, 0x97a5fc35, 0xf8d8ceb8, 0xf90cf300, 0x2fdcd467,
        0x11018def, 0xa2bfe8a1, 0xa81a664b, 0xc24b8b70, 0xc76c51a3, 0x692a536e, 0x0dcd178c, 0xd5814de2, 0x8002d65e,
        0x2b91ba2f, 0x0c39bcd9, 0x4bb27d3f, 0x664fc295, 0x6cdd147d, 0x199512a5, 0x46e0ec7d, 0x78708971);
    Go4(block, start, 44, 0x46e0ec7d, 0x6cdd147d, 0x4bb27d3f, 0x2b91ba2f, 0x78708971, 0x199512a5, 0x664fc295,
        0x0c39bcd9, 0xd192e819, 0xd6990624, 0xf40e3585, 0x106aa070, 0x7144aacf, 0xa03e53ea, 0x06b2a892, 0x422c2043,
        0x418f7c6e, 0x6c4cc11d, 0x5b22cb61, 0x132761bd, 0x979bbd0b, 0x39e5f679, 0xb04abe88, 0x40512fd9);
    Go4(block, start, 48, 0xb04abe88, 0x979bbd0b, 0x5b22cb61, 0x418f7c6e, 0x40512fd9, 0x39e5f679, 0x132761bd,
        0x6c4cc11d, 0x19a4c116, 0x1e376c08, 0x2748774c, 0x34b0bcb5, 0x8f83ee50, 0xf4e2f28d, 0x83c84b33, 0xf00b98ae,
        0x65534779, 0x212af5a8, 0xa4df209d, 0x1b240e24, 0xa304848b, 0x84ec82b0, 0xec5b905f, 0x18c132c4);
    Go4(block, start, 52, 0xec5b905f, 0xa304848b, 0xa4df209d, 0x65534779, 0x18c132c4, 0x84ec82b0, 0x1b240e24,
        0x212af5a8, 0x391c0cb3, 0x4ed8aa4a, 0x5b9cca4f, 0x682e6ff3, 0xad7b406a, 0xe17d306c, 0x9e4f1014, 0x8d153877,
        0xf0284a5f, 0x997317bf, 0x084a25c2, 0xbd43d9eb, 0xb7e9a6e3, 0xee0e680f, 0x31ceb970, 0xf145cae2);
    Go4(block, start, 56, 0x31ceb970, 0xb7e9a6e3, 0x084a25c2, 0xf0284a5f, 0xf145cae2, 0xee0e680f, 0xbd43d9eb,
        0x997317bf, 0x748f82ee, 0x78a5636f, 0x84c87814, 0x8cc70208, 0x247dd0d2, 0x590f736c, 0x309f2fbc, 0x3fc5bb9f,
        0xc2e79a44, 0x842d5dd3, 0x8cb58fb8, 0x64191874, 0x16144801, 0xc43e6f04, 0xca0ece6d, 0x207a56e3);
    Go4(block, start, 60, 0xca0ece6d, 0x16144801, 0x8cb58fb8, 0xc2e79a44, 0x207a56e3, 0xc43e6f04, 0x64191874,
        0x842d5dd3, 0x90befffa, 0xa4506ceb, 0xbef9a3f7, 0xc67178f2, 0x1aa4b3a7, 0x38409f61, 0xea3ab4f6, 0x0e77f61a,
        0xaa8419f7, 0xa482914d, 0xbed6b522, 0x8c0c6f7e, 0x2cb657a1, 0x3bcf3135, 0x7551d1b5, 0x61501597);
    AddIs(0x6a09e667, 0x7551d1b5, 0xdf5bb81c);
    AddIs(0xbb67ae85, 0x2cb657a1, 0xe81e0626);
    AddIs(0x3c6ef372, 0xbed6b522, 0xfb45a894);
    AddIs(0xa54ff53a, 0xaa8419f7, 0x4fd40f31);
    AddIs(0x510e527f, 0x61501597, 0xb25e6816);
    AddIs(0x9b05688c, 0x3bcf3135, 0xd6d499c1);
    AddIs(0x1f83d9ab, 0x8c0c6f7e, 0xab904929);
    AddIs(0x5be0cd19, 0xa482914d, 0x00635e66);
    hide Add;
  }

  lemma SecondWords(block: seq<bv8>)
    requires Sixteen(block, 0, 0x80000000, 0x00000000, 0x00000000, 0x00000000, 0x00000000, 0x00000000, 0x00000000,
                               0x00000000, 0x00000000, 0x00000000, 0x00000000, 0x00000000, 0x00000000, 0x00000000,
                               0x00000000, 0x00000200)
    ensures Sixteen(block, 16, 0x80000000, 0x01400000, 0x00205000, 0x00005088, 0x22000800, 0x22550014, 0x05089742,
                               0xa0000020, 0x5a880000, 0x005c9400, 0x0016d49d, 0xfa801f00, 0xd33225d0, 0x11675959,
                               0xf6e6bfda, 0xb30c1549)
    ensures Sixteen(block, 32, 0x08b2b050, 0x9d7c4c27, 0x0ce2a393, 0x88e6e1ea, 0xa52b4335, 0x67a16f49, 0xd732016f,
                               0x4eeb2e91, 0x5dbf55e5, 0x8eee2335, 0xe2bc5ec2, 0xa83f4394, 0x45ad78f7, 0x36f3d0cd,
                               0xd99c05e8, 0xb0511dc7)
    ensures Sixteen(block, 48, 0x69bc7ac4, 0xbd11375b, 0xe3ba71e5, 0x3b209ff2, 0x18feee17, 0xe25ad9e7, 0x13375046,
                               0x0515089d, 0x4f0d0f04, 0x2627484e, 0x310128d2, 0xc668b434, 0x420841cc, 0x62d311b8,
                               0xe59ba771, 0x85a7a484)
  {
    hide Word;
    Next4(block, 16, 0x80000000, 0x00000000, 0x00000000, 0x00000000, 0x00000000, 0x00000000, 0x00000000, 0x00000000,
          0x00000000, 0x00000000, 0x00000200, 0x80000000, 0x01400000, 0x00205000, 0x00005088);
    Next4(block, 20, 0x00000000, 0x00000000, 0x00000000, 0x00000000, 0x00000000, 0x00000000, 0x00000000, 0x00000200,
          0x80000000, 0x00205000, 0x00005088, 0x22000800, 0x22550014, 0x05089742, 0xa0000020);
    Next4(block, 24, 0x00000000, 0x00000000, 0x00000000, 0x00000000, 0x00000000, 0x01400000, 0x00205000, 0x00005088,
          0x22000800, 0x05089742, 0xa0000020, 0x5a880000, 0x005c9400, 0x0016d49d, 0xfa801f00);
    Next4(block, 28, 0x00000000, 0x00000000, 0x00000000, 0x00000200, 0x80000000, 0x22550014, 0x05089742, 0xa0000020,
          0x5a880000, 0x0016d49d, 0xfa801f00, 0xd33225d0, 0x11675959, 0xf6e6bfda, 0xb30c1549);
    Next4(block, 32, 0x80000000, 0x01400000, 0x00205000, 0x00005088, 0x22000800, 0x005c9400, 0x0016d49d, 0xfa801f00,
          0xd33225d0, 0xf6e6bfda, 0xb30c1549, 0x08b2b050, 0x9d7c4c27, 0x0ce2a393, 0x88e6e1ea);
    Next4(block, 36, 0x22000800, 0x22550014, 0x05089742, 0xa0000020, 0x5a880000, 0x11675959, 0xf6e6bfda, 0xb30c1549,
          0x08b2b050, 0x0ce2a393, 0x88e6e1ea, 0xa52b4335, 0x67a16f49, 0xd732016f, 0x4eeb2e91);
    Next4(block, 40, 0x5a880000, 0x005c9400, 0x0016d49d, 0xfa801f00, 0xd33225d0, 0x9d7c4c27, 0x0ce2a393, 0x88e6e1ea,
          0xa52b4335, 0xd732016f, 0x4eeb2e91, 0x5dbf55e5, 0x8eee2335, 0xe2bc5ec2, 0xa83f4394);
    Next4(block, 44, 0xd33225d0, 0x11675959, 0xf6e6bfda, 0xb30c1549, 0x08b2b050, 0x67a16f49, 0xd732016f, 0x4eeb2e91,
          0x5dbf55e5, 0xe2bc5ec2, 0xa83f4394, 0x45ad78f7, 0x36f3d0cd, 0xd99c05e8, 0xb0511dc7);
    Next4(block, 48, 0x08b2b050, 0x9d7c4c27, 0x0ce2a393, 0x88e6e1ea, 0xa52b4335, 0x8eee2335, 0xe2bc5ec2, 0xa83f4394,
          0x45ad78f7, 0xd99c05e8, 0xb0511dc7, 0x69bc7ac4, 0xbd11375b, 0xe3ba71e5, 0x3b209ff2);
    Next4(block, 52, 0xa52b4335, 0x67a16f49, 0xd732016f, 0x4eeb2e91, 0x5dbf55e5, 0x36f3d0cd, 0xd99c05e8, 0xb0511dc7,
          0x69bc7ac4, 0xe3ba71e5, 0x3b209ff2, 0x18feee17, 0xe25ad9e7, 0x13375046, 0x0515089d);
    Next4(block, 56, 0x5dbf55e5, 0x8eee2335, 0xe2bc5ec2, 0xa83f4394, 0x45ad78f7, 0xbd11375b, 0xe3ba71e5, 0x3b209ff2,
          0x18feee17, 0x13375046, 0x0515089d, 0x4f0d0f04, 0x2627484e, 0x310128d2, 0xc668b434);
    Next4(block, 60, 0x45ad78f7, 0x36f3d0cd, 0xd99c05e8, 0xb0511dc7, 0x69bc7ac4, 0xe25ad9e7, 0x13375046, 0x0515089d,
          0x4f0d0f04, 0x310128d2, 0xc668b434, 0x420841cc, 0x62d311b8, 0xe59ba771, 0x85a7a484);
  }

  lemma SecondCompressed(block: seq<bv8>, start: Hash)
    requires Sixteen(block, 0, 0x80000000, 0x00000000, 0x00000000, 0x00000000, 0x00000000, 0x00000000, 0x00000000,
                               0x00000000, 0x00000000, 0x00000000, 0x00000000, 0x00000000, 0x00000000, 0x00000000,
                               0x00000000, 0x00000200)
    requires start == Hash(0xdf5bb81c, 0xe81e0626, 0xfb45a894, 0x4fd40f31, 0xb25e6816, 0xd6d499c1, 0xab904929, 0x00635e66)
    ensures Compress(start, block) == Hash(0xffe054fe, 0x7ae0cb6d, 0xc65c3af9, 0xb61d5209, 0xf439851d, 0xb43d0ba5, 0x997337df, 0x154668eb)
  {
    hide Word, Rounds, IsConstant;
    RoundsBegin(block, start);
    SecondWords(block);
    Constants0();
    Constants1();
    Constants2();
    Constants3();
    Constants4();
    Constants5();
    Constants6();
    Constants7();
    Go4(block, start, 0, 0xdf5bb81c, 0xe81e0626, 0xfb45a894, 0x4fd40f31, 0xb25e6816, 0xd6d499c1, 0xab904929,
        0x00635e66, 0x428a2f98, 0x71374491, 0xb5c0fbcf, 0xe9b5dba5, 0x80000000, 0x00000000, 0x00000000, 0x00000000,
        0x6b1ce016, 0x25c0df8c, 0x05ab2cda, 0x2bddfc0a, 0x1f91b19d, 0x6d8a812c, 0xb4bcb4d7, 0xf6b3e7c1);
    Go4(block, start, 4, 0xb4bcb4d7, 0x1f91b19d, 0x05ab2cda, 0x6b1ce016, 0xf6b3e7c1, 0x6d8a812c, 0x2bddfc0a,
        0x25c0df8c, 0x3956c25b, 0x59f111f1, 0x923f82a4, 0xab1c5ed5, 0x00000000, 0x00000000, 0x00000000, 0x00000000,
        0x41f9beea, 0xde1b141f, 0x05fdb248, 0x741760d3, 0x9e805bea, 0x521df355, 0x2e984d37, 0x63bffea2);
    Go4(block, start, 8, 0x2e984d37, 0x9e805bea, 0x05fdb248, 0x41f9beea, 0x63bffea2, 0x521df355, 0x741760d3,
        0xde1b141f, 0xd807aa98, 0x12835b01, 0x243185be, 0x550c7dc3, 0x00000000, 0x00000000, 0x00000000, 0x00000000,
        0x6042a0db, 0xd0784926, 0x4f614529, 0x5295e5d4, 0xf68397f3, 0x273d1f25, 0x2c7d66ec, 0xa8718fee);
    Go4(block, start, 12, 0x2c7d66ec, 0xf68397f3, 0x4f614529, 0x6042a0db, 0xa8718fee, 0x273d1f25, 0x5295e5d4,
        0xd0784926, 0x72be5d74, 0x80deb1fe, 0x9bdc06a7, 0xc19bf174, 0x00000000, 0x00000000, 0x00000000, 0x00000200,
        0x6de627f2, 0x95e1f603, 0x5e2cb890, 0x0431a64d, 0x233600c7, 0x4b61d391, 0x0cb9f315, 0xb319b422);
    Go4(block, start, 16, 0x0cb9f315, 0x233600c7, 0x5e2cb890, 0x6de627f2, 0xb319b422, 0x4b61d391, 0x0431a64d,
        0x95e1f603, 0xe49b69c1, 0xefbe4786, 0x0fc19dc6, 0x240ca1cc, 0x80000000, 0x01400000, 0x00205000, 0x00005088,
        0xce66049d, 0xf1c52ec2, 0xbefbb60f, 0x3f8ce8dc, 0xf9fd851c, 0xdd1cab21, 0x619af678, 0x8ec88824);
    Go4(block, start, 20, 0x619af678, 0xf9fd851c, 0xbefbb60f, 0xce66049d, 0x8ec88824, 0xdd1cab21, 0x3f8ce8dc,
        0xf1c52ec2, 0x2de92c6f, 0x4a7484aa, 0x5cb0a9dc, 0x76f988da, 0x22000800, 0x22550014, 0x05089742, 0xa0000020,
        0xac223c8a, 0xc0103a3c, 0xb752cbe9, 0xc4e4095d, 0x5657c45a, 0x318b9bdd, 0xcfa923da, 0x929b2297);
    Go4(block, start, 24, 0xcfa923da, 0x5657c45a, 0xb752cbe9, 0xac223c8a, 0x929b2297, 0x318b9bdd, 0xc4e4095d,
        0xc0103a3c, 0x983e5152, 0xa831c66d, 0xb00327c8, 0xbf597fc7, 0x5a880000, 0x005c9400, 0x0016d49d, 0xfa801f00,
        0x29f62ded, 0xf511481c, 0x44977759, 0xae4facfb, 0xf03af147, 0x42a8f149, 0x5a9353c8, 0x2b91e00f);
    Go4(block, start, 28, 0x5a9353c8, 0xf03af147, 0x44977759, 0x29f62ded, 0x2b91e00f, 0x42a8f149, 0xae4facfb,
        0xf511481c, 0xc6e00bf3, 0xd5a79147, 0x06ca6351, 0x14292967, 0xd33225d0, 0x11675959, 0xf6e6bfda, 0xb30c1549,
        0x21ea2d4c, 0x35a3c6ee, 0xe944faf4, 0xf2734c7c, 0x27cfd90f, 0xb02aa74b, 0xdc0d5baa, 0xd5e2c184);
    Go4(block, start, 32, 0xdc0d5baa, 0x27cfd90f, 0xe944faf4, 0x21ea2d4c, 0xd5e2c184, 0xb02aa74b, 0xf2734c7c,
        0x35a3c6ee, 0x27b70a85, 0x2e1b2138, 0x4d2c6dfc, 0x53380d13, 0x08b2b050, 0x9d7c4c27, 0x0ce2a393, 0x88e6e1ea,
        0x3777fe0d, 0x0cd931bb, 0xc453aff1, 0x13fc5ef5, 0xd8544d1d, 0xeba71813, 0x7c856151, 0x346b275a);
    Go4(block, start, 36, 0x7c856151, 0xd8544d1d, 0xc453aff1, 0x3777fe0d, 0x346b275a, 0xeba71813, 0x13fc5ef5,
        0x0cd931bb, 0x650a7354, 0x766a0abb, 0x81c2c92e, 0x92722c85, 0xa52b4335, 0x67a16f49, 0xd732016f, 0x4eeb2e91,
        0x0d5034bc, 0x2842cbeb, 0x094bdfed, 0x8ae49326, 0xad216742, 0xe5ef34e2, 0xa100803d, 0xfb842f33);
    Go4(block, start, 40, 0xa100803d, 0xad216742, 0x094bdfed, 0x0d5034bc, 0xfb842f33, 0xe5ef34e2, 0x8ae49326,
        0x2842cbeb, 0xa2bfe8a1, 0xa81a664b, 0xc24b8b70, 0xc76c51a3, 0x5dbf55e5, 0x8eee2335, 0xe2bc5ec2, 0xa83f4394,
        0x0add5e57, 0x037ded17, 0xd80611cc, 0xf2da4e0e, 0x55aa48d3, 0xdaa72895, 0xe8b1df21, 0xf6509457);
    Go4(block, start, 44, 0xe8b1df21, 0x55aa48d3, 0xd80611cc, 0x0add5e57, 0xf6509457, 0xdaa72895, 0xf2da4e0e,
        0x037ded17, 0xd192e819, 0xd6990624, 0xf40e3585, 0x106aa070, 0x45ad78f7, 0x36f3d0cd, 0xd99c05e8, 0xb0511dc7,
        0x07b84ba1, 0xf5939a53, 0x0e82a28b, 0xa307bd82, 0xc2cf77d7, 0x2c56047c, 0x7727d560, 0xe57cbc79);
    Go4(block, start, 48, 0x7727d560, 0xc2cf77d7, 0x0e82a28b, 0x07b84ba1, 0xe57cbc79, 0x2c56047c, 0xa307bd82,
        0xf5939a53, 0x19a4c116, 0x1e376c08, 0x2748774c, 0x34b0bcb5, 0x69bc7ac4, 0xbd11375b, 0xe3ba71e5, 0x3b209ff2,
        0xe66b0338, 0x7dfb895c, 0xfe4a5446, 0x9a0c8f52, 0x86ae5421, 0x1e1df9de, 0x7ee57849, 0x95abd329);
    Go4(block, start, 52, 0x7ee57849, 0x86ae5421, 0xfe4a5446, 0xe66b0338, 0x95abd329, 0x1e1df9de, 0x9a0c8f52,
        0x7dfb895c, 0x391c0cb3, 0x4ed8aa4a, 0x5b9cca4f, 0x682e6ff3, 0x18feee17, 0xe25ad9e7, 0x13375046, 0x0515089d,
        0x0bb3d17f, 0xeb1cf3b4, 0x208b5f6a, 0x89dd0d58, 0xda939fe1, 0xd8901f95, 0x6ecc64f3, 0x1b4849c3);
    Go4(block, start, 56, 0x6ecc64f3, 0xda939fe1, 0x208b5f6a, 0x0bb3d17f, 0x1b4849c3, 0xd8901f95, 0x89dd0d58,
        0xeb1cf3b4, 0x748f82ee, 0x78a5636f, 0x84c87814, 0x8cc70208, 0x4f0d0f04, 0x2627484e, 0x310128d2, 0xc668b434,
        0x0fc03fa9, 0xe32d0e61, 0x2e80ca08, 0x420513bd, 0xf15a6a12, 0x4464350c, 0xa9327b76, 0x62d51acf);
    Go4(block, start, 60, 0xa9327b76, 0xf15a6a12, 0x2e80ca08, 0x0fc03fa9, 0x62d51acf, 0x4464350c, 0x420513bd,
        0xe32d0e61, 0x90befffa, 0xa4506ceb, 0xbef9a3f7, 0xc67178f2, 0x420841cc, 0x62d311b8, 0xe59ba771, 0x85a7a484,
        0x664942d8, 0x14e30a85, 0xcb169265, 0xede2eeb6, 0x92c2c547, 0xdd6871e4, 0x20849ce2, 0x41db1d07);
    AddIs(0xdf5bb81c, 0x20849ce2, 0xffe054fe);
    AddIs(0xe81e0626, 0x92c2c547, 0x7ae0cb6d);
    AddIs(0xfb45a894, 0xcb169265, 0xc65c3af9);
    AddIs(0x4fd40f31, 0x664942d8, 0xb61d5209);
    AddIs(0xb25e6816, 0x41db1d07, 0xf439851d);
    AddIs(0xd6d499c1, 0xdd6871e4, 0xb43d0ba5);
    AddIs(0xab904929, 0xede2eeb6, 0x997337df);
    AddIs(0x00635e66, 0x14e30a85, 0x154668eb);
    hide Add;
  }

  lemma FirstBlock()
    ensures Sixteen(LETTERS, 0, 0x61616161, 0x61616161, 0x61616161, 0x61616161, 0x61616161, 0x61616161, 0x61616161,
                                0x61616161, 0x61616161, 0x61616161, 0x61616161, 0x61616161, 0x61616161, 0x61616161,
                                0x61616161, 0x61616161)
  {
    hide Word, BigEndian;
    LetterWord();
    forall t: nat | t < 16
      ensures Word(LETTERS, t) == 0x61616161
    {
      WordIs(LETTERS, t, [0x61, 0x61, 0x61, 0x61], 0x61616161);
    }
  }

  lemma LetterWord()
    ensures BigEndian([0x61, 0x61, 0x61, 0x61]) == 0x61616161
  {
  }

  lemma SecondBlock(block: seq<bv8>)
    requires block == Padding(64)
    ensures Sixteen(block, 0, 0x80000000, 0x00000000, 0x00000000, 0x00000000, 0x00000000, 0x00000000, 0x00000000,
                              0x00000000, 0x00000000, 0x00000000, 0x00000000, 0x00000000, 0x00000000, 0x00000000,
                              0x00000000, 0x00000200)
  {
    hide Word, Padding, ZeroCount;
    PaddingIs(64, 55);
    assert block[0..4] == [0x80, 0, 0, 0];
    WordIs(block, 0, [0x80, 0, 0, 0], 0x80000000);
    ZeroWords(block, 1);
    LengthWords(block, 512);
  }

  lemma LettersBytes()
    ensures DigestBytes(Hash(0xffe054fe, 0x7ae0cb6d, 0xc65c3af9, 0xb61d5209, 0xf439851d, 0xb43d0ba5, 0x997337df, 0x154668eb))
         == [0xff, 0xe0, 0x54, 0xfe] + [0x7a, 0xe0, 0xcb, 0x6d] + [0xc6, 0x5c, 0x3a, 0xf9] + [0xb6, 0x1d, 0x52, 0x09]
            + [0xf4, 0x39, 0x85, 0x1d] + [0xb4, 0x3d, 0x0b, 0xa5] + [0x99, 0x73, 0x37, 0xdf] + [0x15, 0x46, 0x68, 0xeb]
  {
    hide ToBigEndian;
    BytesAre(0xffe054fe, [0xff, 0xe0, 0x54, 0xfe]);
    BytesAre(0x7ae0cb6d, [0x7a, 0xe0, 0xcb, 0x6d]);
    BytesAre(0xc65c3af9, [0xc6, 0x5c, 0x3a, 0xf9]);
    BytesAre(0xb61d5209, [0xb6, 0x1d, 0x52, 0x09]);
    BytesAre(0xf439851d, [0xf4, 0x39, 0x85, 0x1d]);
    BytesAre(0xb43d0ba5, [0xb4, 0x3d, 0x0b, 0xa5]);
    BytesAre(0x997337df, [0x99, 0x73, 0x37, 0xdf]);
    BytesAre(0x154668eb, [0x15, 0x46, 0x68, 0xeb]);
  }

  /** The digest of 64 letters "a", which take two blocks. */
  lemma DigestOfLetters()
    ensures Digest(LETTERS)
         == [0xff, 0xe0, 0x54, 0xfe] + [0x7a, 0xe0, 0xcb, 0x6d] + [0xc6, 0x5c, 0x3a, 0xf9] + [0xb6, 0x1d, 0x52, 0x09]
            + [0xf4, 0x39, 0x85, 0x1d] + [0xb4, 0x3d, 0x0b, 0xa5] + [0x99, 0x73, 0x37, 0xdf] + [0x15, 0x46, 0x68, 0xeb]
  {
    hide Compress, Padding, DigestBytes, Sixteen, ZeroCount;
    FirstBlock();
    FirstCompressed(LETTERS, INITIAL);
    SecondBlock(Padding(64));
    SecondCompressed(Padding(64), Compress(INITIAL, LETTERS));
    PaddingIs(64, 55);
    var padded := LETTERS + Padding(64);
    assert padded[..64] == LETTERS && padded[64..] == Padding(64);
    assert Padding(64)[..64] == Padding(64) && Padding(64)[64..] == [];
    assert Absorb(INITIAL, padded) == Absorb(Compress(INITIAL, LETTERS), Padding(64));
    LettersBytes();
  }
}
