/** Bytes, little-endian integers and flattening: the vocabulary the wire formats share. */
module Bytes {

  type Byte = x: int | 0 <= x < 256

  /** 256 to the power n: the weight of the byte at index n of a little-endian number. */
  function Weight(n: nat): (w: nat)
    ensures w >= 1
  {
    if n == 0 then 1 else 256 * Weight(n - 1)
  }

  /** The n low-order bytes of v, least significant first. */
  function ToLe(v: nat, n: nat): (s: seq<Byte>)
    ensures |s| == n
    ensures v < Weight(n) ==> FromLe(s) == v
  {
    if n == 0 then [] else [v % 256] + ToLe(v / 256, n - 1)
  }

  /** The number whose bytes, least significant first, are s. */
  function FromLe(s: seq<Byte>): (v: nat)
    ensures v < Weight(|s|)
  {
    if s == [] then 0 else (s[0] as int) + 256 * FromLe(s[1..])
  }

  lemma {:induction false} ToLeFromLe(s: seq<Byte>)
    ensures ToLe(FromLe(s), |s|) == s
  {
    if s != [] {
      ToLeFromLe(s[1..]);
      assert FromLe(s) % 256 == s[0] && FromLe(s) / 256 == FromLe(s[1..]);
    }
  }

  /** The next byte of a little-endian number adds its value at the next weight. */
  lemma {:induction false} FromLeAppend(s: seq<Byte>, b: Byte)
    ensures FromLe(s + [b]) == FromLe(s) + Weight(|s|) * b
  {
    if s == [] {
      assert (s + [b])[1..] == [];
      assert FromLe(s + [b]) == (b as int) + 256 * FromLe([]);
    } else {
      assert (s + [b])[1..] == s[1..] + [b];
      FromLeAppend(s[1..], b);
      MulAssociates(256, Weight(|s| - 1), b);
    }
  }

  lemma MulAssociates(a: int, b: int, c: int)
    ensures a * (b * c) == a * b * c
  {
  }

  function Flatten<T>(parts: seq<seq<T>>): seq<T> {
    if parts == [] then [] else parts[0] + Flatten(parts[1..])
  }

  lemma FlattenAppend<T>(parts: seq<seq<T>>, last: seq<T>)
    ensures Flatten(parts + [last]) == Flatten(parts) + last
  {
    if parts == [] {
      assert parts + [last] == [last];
      assert Flatten([last]) == last + Flatten<T>([]);
    } else {
      assert (parts + [last])[1..] == parts[1..] + [last];
      FlattenAppend(parts[1..], last);
    }
  }
}
