/**
 * Machine words as little-endian bytes.
 *
 * The stored configuration is a packed structure whose numbers and checksum are
 * in the byte order of the machine. A word gives its bytes, least significant
 * first, and is determined by them.
 */
module Words {

  function Le32(v: bv32): (s: seq<bv8>)
    ensures |s| == 4
  {
    [(v & 0xff) as bv8, ((v >> 8) & 0xff) as bv8, ((v >> 16) & 0xff) as bv8, ((v >> 24) & 0xff) as bv8]
  }

  function FromLe32(s: seq<bv8>): bv32
    requires |s| == 4
  {
    (s[0] as bv32) | ((s[1] as bv32) << 8) | ((s[2] as bv32) << 16) | ((s[3] as bv32) << 24)
  }

  lemma LeastSignificantFirst()
    ensures Le32(0x0403_0201) == [1, 2, 3, 4] && Le16(0x0201) == [1, 2]
  {
  }

  lemma Le32RoundTrip(v: bv32)
    ensures FromLe32(Le32(v)) == v
  {
  }

  lemma FromLe32RoundTrip(s: seq<bv8>)
    requires |s| == 4
    ensures Le32(FromLe32(s)) == s
  {
    var a, b, c, d := s[0], s[1], s[2], s[3];
    assert ((a as bv32) | ((b as bv32) << 8) | ((c as bv32) << 16) | ((d as bv32) << 24)) & 0xff == a as bv32;
    assert s == [a, b, c, d];
  }

  function Le16(v: bv16): (s: seq<bv8>)
    ensures |s| == 2
  {
    [(v & 0xff) as bv8, ((v >> 8) & 0xff) as bv8]
  }

  function FromLe16(s: seq<bv8>): bv16
    requires |s| == 2
  {
    (s[0] as bv16) | ((s[1] as bv16) << 8)
  }

  lemma Le16RoundTrips(v: bv16, s: seq<bv8>)
    requires |s| == 2
    ensures FromLe16(Le16(v)) == v && Le16(FromLe16(s)) == s
  {
    assert s == [s[0], s[1]];
  }
}
