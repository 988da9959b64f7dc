/**
 * A stored configuration slot: the packed structure with its checksum, and the
 * validation every configuration must pass before it is written or used.
 */
module ProvisionBlob {
  import opened Bytes
  import opened Words
  import Crc32

  const SCHEMA: bv32 := 1

  /** Text fields hold their bytes up to and including a terminating zero, and whatever follows it. */
  datatype Config = Config(
    schema: bv32,
    wifiSsid: seq<bv8>,
    wifiPassword: seq<bv8>,
    host: seq<bv8>,
    padding: seq<bv8>,
    port: bv16,
    username: seq<bv8>,
    password: seq<bv8>,
    tls: bv8,
    ca: seq<bv8>,
    clientId: seq<bv8>,
    baseTopic: seq<bv8>)

  datatype Error = InvalidArgument | InvalidCrc | InvalidVersion

  datatype Result<T> = Ok(value: T) | Err(error: Error)

  datatype Verdict =
    | Accepted
    | Malformed
    | UnsupportedSchema
    | MissingWifi
    | MissingHost
    | InvalidPort
    | CaRequired
    | MissingClientId
    | MissingBaseTopic

  // ---------- Validation ----------

  /** A zero byte ends the text within the field. */
  predicate Terminated(field: seq<bv8>) {
    exists i :: 0 <= i < |field| && field[i] == 0
  }

  predicate Present(field: seq<bv8>) {
    Terminated(field) && field[0] != 0
  }

  /** The source's length loop stops inside the field exactly on terminated text. */
  method BoundedLength(field: seq<bv8>) returns (n: nat)
    requires field != []
    ensures n <= |field|
    ensures n < |field| <==> Terminated(field)
    ensures n < |field| ==> field[n] == 0
    ensures forall i :: 0 <= i < n ==> field[i] != 0
  {
    n := 0;
    while n < |field| && field[n] != 0
      invariant n <= |field|
      invariant forall i :: 0 <= i < n ==> field[i] != 0
    {
      n := n + 1;
    }
  }

  /** The first rule a configuration breaks, in the order they are checked. */
  function Validate(c: Config): Verdict
    requires Shaped(c)
  {
    if c.schema != 0 && c.schema != SCHEMA then UnsupportedSchema
    else if !Present(c.wifiSsid) then MissingWifi
    else if !Terminated(c.wifiPassword) || !Terminated(c.username) || !Terminated(c.password) || !Terminated(c.ca)
    then Malformed
    else if !Present(c.host) then MissingHost
    else if c.port == 0 then InvalidPort
    else if c.tls != 0 && !Present(c.ca) then CaRequired
    else if !Present(c.clientId) then MissingClientId
    else if !Present(c.baseTopic) then MissingBaseTopic
    else Accepted
  }

  /** A text that a zero byte ends within its field, and that is not empty. */
  ghost predicate Nonempty(field: seq<bv8>) {
    exists n :: 0 < n < |field| && field[n] == 0 && forall i :: 0 <= i < n ==> field[i] != 0
  }

  lemma {:induction false} FirstZero(field: seq<bv8>, n: nat)
    requires n < |field| && field[n] == 0
    ensures exists k :: 0 <= k <= n && field[k] == 0 && forall i :: 0 <= i < k ==> field[i] != 0
    decreases n
  {
    if i: nat :| i < n && field[i] == 0 {
      FirstZero(field, i);
    }
  }

  lemma PresentIffNonempty(field: seq<bv8>)
    ensures field != [] ==> (Present(field) <==> Nonempty(field))
  {
    if field != [] && Present(field) {
      var n: nat :| n < |field| && field[n] == 0;
      FirstZero(field, n);
    }
  }

  /**
   * The configurations that are saved and used: of a known schema, every text
   * within its field, a network, a host, a client id and a topic, a port, and a
   * certificate if the connection is to be encrypted.
   */
  lemma AcceptedIff(c: Config)
    requires Shaped(c)
    ensures Validate(c) == Accepted
        <==> && (c.schema == 0 || c.schema == 1) && c.port != 0
             && Nonempty(c.wifiSsid) && Nonempty(c.host) && Nonempty(c.clientId) && Nonempty(c.baseTopic)
             && Terminated(c.wifiPassword) && Terminated(c.username) && Terminated(c.password) && Terminated(c.ca)
             && (c.tls != 0 ==> Nonempty(c.ca))
  {
    PresentIffNonempty(c.wifiSsid);
    PresentIffNonempty(c.host);
    PresentIffNonempty(c.clientId);
    PresentIffNonempty(c.baseTopic);
    PresentIffNonempty(c.ca);
    hide Nonempty, Terminated;
  }

  // ---------- Layout ----------

  /** The byte lengths of the fields of a configuration, in order. */
  const LENGTHS: seq<nat> := [4, 33, 65, 129, 1, 2, 129, 257, 1, 4097, 65, 129]

  function Sum(lengths: seq<nat>): nat {
    if lengths == [] then 0 else lengths[0] + Sum(lengths[1..])
  }

  /** Cuts bytes into consecutive parts of the given lengths. */
  function Cut(bytes: seq<bv8>, lengths: seq<nat>): (parts: seq<seq<bv8>>)
    requires |bytes| == Sum(lengths)
    ensures |parts| == |lengths|
    ensures forall i :: 0 <= i < |parts| ==> |parts[i]| == lengths[i]
  {
    if lengths == [] then [] else [bytes[..lengths[0]]] + Cut(bytes[lengths[0]..], lengths[1..])
  }

  predicate Fits(parts: seq<seq<bv8>>, lengths: seq<nat>) {
    |parts| == |lengths| && forall i :: 0 <= i < |parts| ==> |parts[i]| == lengths[i]
  }

  lemma {:induction false} FlattenCut(bytes: seq<bv8>, lengths: seq<nat>)
    requires |bytes| == Sum(lengths)
    ensures Flatten(Cut(bytes, lengths)) == bytes
  {
    if lengths != [] {
      FlattenCut(bytes[lengths[0]..], lengths[1..]);
    }
  }

  lemma {:induction false} CutFlatten(parts: seq<seq<bv8>>, lengths: seq<nat>)
    requires Fits(parts, lengths)
    ensures |Flatten(parts)| == Sum(lengths) && Cut(Flatten(parts), lengths) == parts
  {
    if parts != [] {
      CutFlatten(parts[1..], lengths[1..]);
      assert Flatten(parts)[..lengths[0]] == parts[0] && Flatten(parts)[lengths[0]..] == Flatten(parts[1..]);
    }
  }

  /** The structure's text fields have the size of their arrays; one byte aligns the port. */
  predicate Shaped(c: Config) {
    && |c.wifiSsid| == 33 && |c.wifiPassword| == 65 && |c.host| == 129 && |c.padding| == 1
    && |c.username| == 129 && |c.password| == 257 && |c.ca| == 4097
    && |c.clientId| == 65 && |c.baseTopic| == 129
  }

  function Parts(c: Config): (parts: seq<seq<bv8>>)
    requires Shaped(c)
    ensures Fits(parts, LENGTHS)
  {
    [Le32(c.schema), c.wifiSsid, c.wifiPassword, c.host, c.padding, Le16(c.port), c.username, c.password, [c.tls], c.ca,
     c.clientId, c.baseTopic]
  }

  function FromParts(p: seq<seq<bv8>>): (c: Config)
    requires Fits(p, LENGTHS)
    ensures Shaped(c)
  {
    Config(FromLe32(p[0]), p[1], p[2], p[3], p[4], FromLe16(p[5]), p[6], p[7], p[8][0], p[9], p[10], p[11])
  }

  lemma PartsRoundTrip(c: Config)
    requires Shaped(c)
    ensures FromParts(Parts(c)) == c
  {
    hide Le32, FromLe32, Le16, FromLe16;
    Le32RoundTrip(c.schema);
    Le16RoundTrips(c.port, [0, 0]);
  }

  lemma FromPartsRoundTrip(p: seq<seq<bv8>>)
    requires Fits(p, LENGTHS)
    ensures Parts(FromParts(p)) == p
  {
    hide Le32, FromLe32, Le16, FromLe16;
    FromLe32RoundTrip(p[0]);
    Le16RoundTrips(0, p[5]);
    assert p[8] == [p[8][0]];
  }

  const CONFIG_SIZE: nat := 4912

  /** Where a part lies, if the parts from it on are flattened from an offset on. */
  ghost predicate LiesFrom(bytes: seq<bv8>, offset: nat, parts: seq<seq<bv8>>, k: nat) {
    offset <= |bytes| && k <= |parts| && bytes[offset..] == Flatten(parts[k..])
  }

  lemma Peel(bytes: seq<bv8>, offset: nat, parts: seq<seq<bv8>>, k: nat)
    requires k < |parts| && LiesFrom(bytes, offset, parts, k)
    ensures var end := offset + |parts[k]|;
            end <= |bytes| && bytes[offset..end] == parts[k] && LiesFrom(bytes, end, parts, k + 1)
  {
    var end, rest := offset + |parts[k]|, parts[k..];
    assert rest[1..] == parts[k + 1..];
    assert Flatten(rest) == parts[k] + Flatten(parts[k + 1..]);
    assert bytes[offset..end] == bytes[offset..][..|parts[k]|] && bytes[end..] == bytes[offset..][|parts[k]|..];
  }

  lemma SumFirst(lengths: seq<nat>, rest: seq<nat>, n: nat)
    requires lengths == [n] + rest
    ensures Sum(lengths) == n + Sum(rest)
  {
    assert lengths[1..] == rest;
  }

  lemma LengthsAddUp()
    ensures Sum(LENGTHS) == CONFIG_SIZE
  {
    hide Sum;
    var l1: seq<nat> := [33, 65, 129, 1, 2, 129, 257, 1, 4097, 65, 129];
    var l4: seq<nat> := [1, 2, 129, 257, 1, 4097, 65, 129];
    var l8: seq<nat> := [1, 4097, 65, 129];
    SumFirst(LENGTHS, l1, 4);
    SumFirst(l1, [65, 129] + l4, 33);
    SumFirst([65, 129] + l4, [129] + l4, 65);
    SumFirst([129] + l4, l4, 129);
    SumFirst(l4, [2, 129, 257] + l8, 1);
    SumFirst([2, 129, 257] + l8, [129, 257] + l8, 2);
    SumFirst([129, 257] + l8, [257] + l8, 129);
    SumFirst([257] + l8, l8, 257);
    SumFirst(l8, [4097, 65, 129], 1);
    SumFirst([4097, 65, 129], [65, 129], 4097);
    SumFirst([65, 129], [129], 65);
    SumFirst([129], [], 129);
    SumNone();
  }

  lemma SumNone()
    ensures Sum([]) == 0
  {
  }

  function ConfigBytes(c: Config): (bytes: seq<bv8>)
    requires Shaped(c)
    ensures |bytes| == CONFIG_SIZE
  {
    CutFlatten(Parts(c), LENGTHS);
    LengthsAddUp();
    Flatten(Parts(c))
  }

  /** Where the structure keeps its first fields. */
  lemma FieldsBegin(c: Config)
    requires Shaped(c)
    ensures var s := ConfigBytes(c);
            && s[0..4] == Le32(c.schema) && s[4..37] == c.wifiSsid && s[37..102] == c.wifiPassword && s[102..231] == c.host
            && s[232..234] == Le16(c.port)
    ensures LiesFrom(ConfigBytes(c), 234, Parts(c), 6)
  {
    var s, p := ConfigBytes(c), Parts(c);
    BytesAreParts(c);
    hide LiesFrom, Le32, Le16, ConfigBytes, Parts;
    Peel(s, 0, p, 0);
    Peel(s, 4, p, 1);
    Peel(s, 37, p, 2);
    Peel(s, 102, p, 3);
    Peel(s, 231, p, 4);
    Peel(s, 232, p, 5);
  }

  /** Where the structure keeps its last fields. */
  lemma FieldsEnd(c: Config)
    requires Shaped(c)
    ensures var s := ConfigBytes(c);
            && s[234..363] == c.username && s[363..620] == c.password && s[620..621] == [c.tls]
            && s[621..4718] == c.ca && s[4718..4783] == c.clientId && s[4783..4912] == c.baseTopic
  {
    var s, p := ConfigBytes(c), Parts(c);
    BytesAreParts(c);
    FieldsBegin(c);
    hide LiesFrom, Le32, Le16, ConfigBytes, Parts;
    Peel(s, 234, p, 6);
    Peel(s, 363, p, 7);
    Peel(s, 620, p, 8);
    Peel(s, 621, p, 9);
    Peel(s, 4718, p, 10);
    Peel(s, 4783, p, 11);
  }

  lemma BytesAreParts(c: Config)
    requires Shaped(c)
    ensures LiesFrom(ConfigBytes(c), 0, Parts(c), 0) && |Parts(c)| == 12
    ensures var p := Parts(c);
            && p[0] == Le32(c.schema) && p[1] == c.wifiSsid && p[2] == c.wifiPassword && p[3] == c.host && p[4] == c.padding
            && p[5] == Le16(c.port) && p[6] == c.username && p[7] == c.password && p[8] == [c.tls] && p[9] == c.ca
            && p[10] == c.clientId && p[11] == c.baseTopic
  {
    hide Flatten, Le32, Le16;
    assert ConfigBytes(c)[0..] == ConfigBytes(c) && Parts(c)[0..] == Parts(c);
  }

  function ParseConfig(bytes: seq<bv8>): (c: Config)
    requires |bytes| == CONFIG_SIZE
    ensures Shaped(c)
  {
    LengthsAddUp();
    FromParts(Cut(bytes, LENGTHS))
  }

  lemma ConfigRoundTrip(c: Config)
    requires Shaped(c)
    ensures ParseConfig(ConfigBytes(c)) == c
  {
    CutFlatten(Parts(c), LENGTHS);
    LengthsAddUp();
    PartsRoundTrip(c);
  }

  lemma ParseRoundTrip(bytes: seq<bv8>)
    requires |bytes| == CONFIG_SIZE
    ensures ConfigBytes(ParseConfig(bytes)) == bytes
  {
    LengthsAddUp();
    FromPartsRoundTrip(Cut(bytes, LENGTHS));
    FlattenCut(bytes, LENGTHS);
  }

  // ---------- The slot ----------

  const SLOT_SIZE: nat := 4924

  /** Schema, generation, checksum, configuration. */
  function Assemble(schema: bv32, generation: bv32, crc: bv32, config: seq<bv8>): (blob: seq<bv8>)
    requires |config| == CONFIG_SIZE
    ensures |blob| == SLOT_SIZE
    ensures blob[..4] == Le32(schema) && blob[4..8] == Le32(generation) && blob[8..12] == Le32(crc) && blob[12..] == config
  {
    Le32(schema) + Le32(generation) + Le32(crc) + config
  }

  /** The checksum is taken with its own field cleared. */
  function Cleared(blob: seq<bv8>): (r: seq<bv8>)
    requires |blob| == SLOT_SIZE
    ensures |r| == SLOT_SIZE
  {
    blob[..8] + [0, 0, 0, 0] + blob[12..]
  }

  function Checksum(blob: seq<bv8>): bv32
    requires |blob| == SLOT_SIZE
  {
    Crc32.Crc(0, Cleared(blob))
  }

  function StoredChecksum(blob: seq<bv8>): bv32
    requires |blob| == SLOT_SIZE
  {
    FromLe32(blob[8..12])
  }

  function Sealed(schema: bv32, generation: bv32, config: seq<bv8>): (blob: seq<bv8>)
    requires |config| == CONFIG_SIZE
    ensures |blob| == SLOT_SIZE
  {
    Assemble(schema, generation, Checksum(Assemble(schema, generation, 0, config)), config)
  }

  function Encode(config: Config, generation: bv32): (r: Result<seq<bv8>>)
    requires Shaped(config)
    ensures r.Ok? ==> |r.value| == SLOT_SIZE
  {
    if Validate(config) != Accepted then Err(InvalidArgument)
    else Ok(Sealed(SCHEMA, generation, ConfigBytes(config.(schema := SCHEMA))))
  }

  function Decode(data: seq<bv8>): Result<(Config, bv32)> {
    if |data| != SLOT_SIZE then Err(InvalidArgument)
    else if Checksum(data) != StoredChecksum(data) then Err(InvalidCrc)
    else
      var config := ParseConfig(data[12..]);
      if FromLe32(data[..4]) != SCHEMA || config.schema != SCHEMA then Err(InvalidVersion)
      else if Validate(config) != Accepted then Err(InvalidArgument)
      else Ok((config, FromLe32(data[4..8])))
  }

  method EncodeBlob(config: Config, generation: bv32) returns (r: Result<seq<bv8>>)
    requires Shaped(config)
    ensures r == Encode(config, generation)
  {
    hide Validate, ConfigBytes, Crc32.Crc, Le32;
    if Validate(config) != Accepted {
      return Err(InvalidArgument);
    }
    var bytes := ConfigBytes(config.(schema := SCHEMA));
    var blob := Assemble(SCHEMA, generation, 0, bytes);
    ZeroBytes();
    assert Cleared(blob) == blob;
    var crc := Crc32.Update(0, blob);
    return Ok(Assemble(SCHEMA, generation, crc, bytes));
  }

  lemma ZeroBytes()
    ensures Le32(0) == [0, 0, 0, 0]
  {
  }

  method DecodeBlob(data: seq<bv8>) returns (r: Result<(Config, bv32)>)
    ensures r == Decode(data)
  {
    hide Validate, ParseConfig, Crc32.Crc, FromLe32;
    if |data| != SLOT_SIZE {
      return Err(InvalidArgument);
    }
    var cleared := data[..8] + [0, 0, 0, 0] + data[12..];
    var crc := Crc32.Update(0, cleared);
    if crc != FromLe32(data[8..12]) {
      return Err(InvalidCrc);
    }
    var config := ParseConfig(data[12..]);
    if FromLe32(data[..4]) != SCHEMA || config.schema != SCHEMA {
      return Err(InvalidVersion);
    }
    if Validate(config) != Accepted {
      return Err(InvalidArgument);
    }
    return Ok((config, FromLe32(data[4..8])));
  }

  // ---------- What a stored slot guarantees ----------

  lemma SealedIsConsistent(schema: bv32, generation: bv32, config: seq<bv8>)
    requires |config| == CONFIG_SIZE
    ensures var blob := Sealed(schema, generation, config);
            && Checksum(blob) == StoredChecksum(blob)
            && FromLe32(blob[..4]) == schema && FromLe32(blob[4..8]) == generation && blob[12..] == config
  {
    hide Le32, FromLe32, Crc32.Crc;
    var zero := Assemble(schema, generation, 0, config);
    var blob := Sealed(schema, generation, config);
    assert blob[..8] == blob[..4] + blob[4..8] && zero[..8] == zero[..4] + zero[4..8];
    assert Cleared(blob) == Cleared(zero);
    Le32RoundTrip(schema);
    Le32RoundTrip(generation);
    Le32RoundTrip(Checksum(zero));
  }

  /** A saved configuration reads back with its generation; only the schema is normalised. */
  lemma DecodeEncode(config: Config, generation: bv32)
    requires Shaped(config) && Validate(config) == Accepted
    ensures Encode(config, generation).Ok?
    ensures Decode(Encode(config, generation).value) == Ok((config.(schema := SCHEMA), generation))
  {
    hide Sealed, Checksum, StoredChecksum, ConfigBytes, ParseConfig, FromLe32;
    var saved := config.(schema := SCHEMA);
    SealedIsConsistent(SCHEMA, generation, ConfigBytes(saved));
    ConfigRoundTrip(saved);
  }

  lemma SealedAgain(data: seq<bv8>)
    requires |data| == SLOT_SIZE && Checksum(data) == StoredChecksum(data)
    ensures Sealed(FromLe32(data[..4]), FromLe32(data[4..8]), data[12..]) == data
  {
    hide Le32, FromLe32, Crc32.Crc;
    FromLe32RoundTrip(data[..4]);
    FromLe32RoundTrip(data[4..8]);
    FromLe32RoundTrip(data[8..12]);
    ZeroBytes();
    var zero := Assemble(FromLe32(data[..4]), FromLe32(data[4..8]), 0, data[12..]);
    assert data[..8] == data[..4] + data[4..8] && zero[..8] == zero[..4] + zero[4..8];
    assert Cleared(zero) == Cleared(data);
    assert data == data[..4] + data[4..8] + data[8..12] + data[12..];
  }

  /** Only saved slots decode: the decoded pair encodes to the very bytes that were read. */
  lemma EncodeDecode(data: seq<bv8>)
    requires Decode(data).Ok?
    ensures Encode(Decode(data).value.0, Decode(data).value.1) == Ok(data)
  {
    hide Sealed, Checksum, StoredChecksum, ConfigBytes, ParseConfig, FromLe32, Validate;
    SealedAgain(data);
    ParseRoundTrip(data[12..]);
    var config := Decode(data).value.0;
    assert config.(schema := SCHEMA) == config;
  }

  /** Changing any single byte of a slot with a correct checksum makes reading it fail on the checksum. */
  lemma ByteChangeFailsCrc(data: seq<bv8>, i: nat, b: bv8)
    requires |data| == SLOT_SIZE && Checksum(data) == StoredChecksum(data)
    requires i < SLOT_SIZE && data[i] != b
    ensures Decode(data[i := b]) == Err(InvalidCrc)
  {
    hide FromLe32, Crc32.Crc;
    var changed := data[i := b];
    if 8 <= i < 12 {
      assert Cleared(changed) == Cleared(data);
      assert changed[8..12][i - 8] != data[8..12][i - 8];
      FromLe32RoundTrip(changed[8..12]);
      FromLe32RoundTrip(data[8..12]);
    } else {
      assert changed[8..12] == data[8..12];
      var c := Cleared(data);
      assert c[i] == data[i] && Cleared(changed) == c[i := b];
      Crc32.ByteChangeIsDetected(0, c[..i], data[i], b, c[i + 1..]);
      assert c == c[..i] + [data[i]] + c[i + 1..];
      assert c[i := b] == c[..i] + [b] + c[i + 1..];
    }
  }

  lemma Sliced(s: seq<bv8>, i: nat, n: nat)
    requires i + n <= |s|
    ensures s == s[..i] + s[i..i + n] + s[i + n..]
  {
  }

  /** Replacing bytes outside the checksum field commutes with clearing that field. */
  lemma ClearedBurst(data: seq<bv8>, i: nat, burst: seq<bv8>)
    requires |data| == SLOT_SIZE && |burst| == 4 && (i + 4 <= 8 || 12 <= i <= SLOT_SIZE - 4)
    ensures var changed := data[..i] + burst + data[i + 4..];
            && changed[8..12] == data[8..12]
            && Cleared(changed) == Cleared(data)[..i] + burst + Cleared(data)[i + 4..]
            && Cleared(data)[i..i + 4] == data[i..i + 4]
  {
    var changed := data[..i] + burst + data[i + 4..];
    var c := Cleared(data);
    var c' := Cleared(changed);
    var expected := c[..i] + burst + c[i + 4..];
    forall k | 0 <= k < SLOT_SIZE
      ensures c'[k] == expected[k]
    {
      assert c[k] == if 8 <= k < 12 then 0 else data[k];
      assert c'[k] == if 8 <= k < 12 then 0 else changed[k];
    }
    assert c' == expected;
    assert c[i..i + 4] == data[i..i + 4];
    assert changed[8..12] == data[8..12];
  }

  /** So does any change within four consecutive bytes outside the checksum field. */
  lemma BurstFailsCrc(data: seq<bv8>, i: nat, burst: seq<bv8>)
    requires |data| == SLOT_SIZE && Checksum(data) == StoredChecksum(data)
    requires |burst| == 4 && (i + 4 <= 8 || 12 <= i <= SLOT_SIZE - 4) && data[i..i + 4] != burst
    ensures Decode(data[..i] + burst + data[i + 4..]) == Err(InvalidCrc)
  {
    hide FromLe32, Crc32.Crc, Cleared;
    ClearedBurst(data, i, burst);
    var c := Cleared(data);
    Sliced(c, i, 4);
    Crc32.BurstIsDetected(0, c[..i], c[i..i + 4], burst, c[i + 4..]);
  }
}
