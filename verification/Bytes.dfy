/** Little-endian fields in byte buffers, and the CRC-32 that protects them. */
module Bytes {
  import opened Counters

  type byte = n: nat | n < 256

  type Buffer = seq<byte>

  const MASK32: nat := 0x1_0000_0000

  /* ---------------- fields ---------------- */

  function U16(v: nat): (b: Buffer)
    requires v < 0x1_0000
    ensures |b| == 2
  {
    [v % 256, v / 256]
  }

  function U32(v: uint32): (b: Buffer)
    ensures |b| == 4
  {
    [v % 256, v / 0x100 % 256, v / 0x1_0000 % 256, v / 0x100_0000]
  }

  function U64(v: uint64): (b: Buffer)
    ensures |b| == 8
  {
    U32(v % MASK32) + U32(v / MASK32)
  }

  function GetU16(s: Buffer, at: nat): (v: nat)
    requires at + 2 <= |s|
    ensures v < 0x1_0000
  {
    var low: nat, high: nat := s[at], s[at + 1];
    low + 0x100 * high
  }

  function GetU32(s: Buffer, at: nat): (v: uint32)
    requires at + 4 <= |s|
  {
    var b0: nat, b1: nat, b2: nat, b3: nat := s[at], s[at + 1], s[at + 2], s[at + 3];
    b0 + 0x100 * b1 + 0x1_0000 * b2 + 0x100_0000 * b3
  }

  function GetU64(s: Buffer, at: nat): (v: uint64)
    requires at + 8 <= |s|
  {
    GetU32(s, at) + MASK32 * GetU32(s, at + 4)
  }

  /** Writing bytes into a buffer changes exactly the bytes it covers. */
  function Put(s: Buffer, at: nat, b: Buffer): (r: Buffer)
    requires at + |b| <= |s|
    ensures |r| == |s|
    ensures forall k | 0 <= k < |r| :: r[k] == if at <= k < at + |b| then b[k - at] else s[k]
  {
    s[..at] + b + s[at + |b|..]
  }

  lemma FourDigits(v: nat)
    ensures v == v % 256 + 0x100 * (v / 0x100 % 256) + 0x1_0000 * (v / 0x1_0000 % 256) + 0x100_0000 * (v / 0x100_0000)
  {
    var v1 := v / 0x100;
    var v2 := v1 / 0x100;
    assert v / 0x1_0000 == v2 && v / 0x100_0000 == v2 / 0x100;
  }

  lemma U32RoundTrip(s: Buffer, at: nat, v: uint32)
    requires at + 4 <= |s| && s[at..at + 4] == U32(v)
    ensures GetU32(s, at) == v
  {
    var f := s[at..at + 4];
    assert f[0] == s[at] && f[1] == s[at + 1] && f[2] == s[at + 2] && f[3] == s[at + 3];
    FourDigits(v);
  }

  lemma U16RoundTrip(s: Buffer, at: nat, v: nat)
    requires v < 0x1_0000 && at + 2 <= |s| && s[at..at + 2] == U16(v)
    ensures GetU16(s, at) == v
  {
    var f := s[at..at + 2];
    assert f[0] == s[at] && f[1] == s[at + 1];
  }

  lemma U64RoundTrip(s: Buffer, at: nat, v: uint64)
    requires at + 8 <= |s| && s[at..at + 8] == U64(v)
    ensures GetU64(s, at) == v
  {
    assert s[at..at + 4] == s[at..at + 8][..4] == U32(v % MASK32);
    assert s[at + 4..at + 8] == s[at..at + 8][4..] == U32(v / MASK32);
    U32RoundTrip(s, at, v % MASK32);
    U32RoundTrip(s, at + 4, v / MASK32);
  }

  /* ---------------- sequences of words ---------------- */

  function Pack(words: seq<uint32>): (b: Buffer)
    ensures |b| == 4 * |words|
    decreases |words|
  {
    if words == [] then [] else Pack(words[..|words| - 1]) + U32(words[|words| - 1])
  }

  function Unpack(b: Buffer): (words: seq<uint32>)
    ensures |words| == |b| / 4
  {
    seq(|b| / 4, i requires 0 <= i < |b| / 4 => GetU32(b, 4 * i))
  }

  lemma {:induction false} PackField(words: seq<uint32>, i: nat)
    requires i < |words|
    ensures Pack(words)[4 * i..4 * i + 4] == U32(words[i])
    decreases |words|
  {
    var init := words[..|words| - 1];
    if i < |init| {
      PackField(init, i);
      assert Pack(words)[4 * i..4 * i + 4] == Pack(init)[4 * i..4 * i + 4];
    }
  }

  lemma UnpackPack(words: seq<uint32>)
    ensures Unpack(Pack(words)) == words
  {
    forall i | 0 <= i < |words|
      ensures Unpack(Pack(words))[i] == words[i]
    {
      PackField(words, i);
      U32RoundTrip(Pack(words), 4 * i, words[i]);
    }
  }

  /* ---------------- CRC-32 ---------------- */

  function CrcBit(c: bv32): (r: bv32) {
    (c >> 1) ^ (if c & 1 != 0 then 0xEDB8_8320 else 0)
  }

  function CrcBits(c: bv32, n: nat): (r: bv32) {
    if n == 0 then c else CrcBit(CrcBits(c, n - 1))
  }

  function Wide(b: byte): (r: bv32) {
    b as bv32
  }

  function CrcMix(c: bv32, b: byte): (r: bv32) {
    c ^ Wide(b)
  }

  function CrcRegister(s: Buffer): (r: bv32)
    decreases |s|
  {
    if s == [] then 0xFFFF_FFFF
    else CrcBits(CrcMix(CrcRegister(s[..|s| - 1]), s[|s| - 1]), 8)
  }

  function CrcResult(c: bv32): (r: uint32) {
    (!c) as int
  }

  /** The checksum of section 8 of RFC 1952. */
  function Crc32(s: Buffer): (c: uint32) {
    CrcResult(CrcRegister(s))
  }

  /** The checksum of the text "a". */
  lemma ChecksumOfA()
    ensures Crc32([97]) == 0xE8B7_BE43
  {
    var c: bv32 := 0xFFFF_FF9E;
    assert [97][..0] == [];
    assert CrcMix(CrcRegister([]), 97) == c;
    assert CrcBits(c, 0) == c;
    assert CrcBits(c, 1) == CrcBit(CrcBits(c, 0)) == 0x7fffffcf;
    assert CrcBits(c, 2) == CrcBit(CrcBits(c, 1)) == 0xd2477cc7;
    assert CrcBits(c, 3) == CrcBit(CrcBits(c, 2)) == 0x849b3d43;
    assert CrcBits(c, 4) == CrcBit(CrcBits(c, 3)) == 0xaff51d81;
    assert CrcBits(c, 5) == CrcBit(CrcBits(c, 4)) == 0xba420de0;
    assert CrcBits(c, 6) == CrcBit(CrcBits(c, 5)) == 0x5d2106f0;
    assert CrcBits(c, 7) == CrcBit(CrcBits(c, 6)) == 0x2e908378;
    assert CrcBits(c, 8) == CrcBit(CrcBits(c, 7)) == 0x174841bc;
  }

  /** No bit step merges two registers: the lowest bit shifted out is the highest bit of the result. */
  lemma BitIsInjective(a: bv32, b: bv32)
    requires CrcBit(a) == CrcBit(b)
    ensures a == b
  {
    hide CrcBit;
    LowBitShows(a);
    LowBitShows(b);
    Recombined(a);
    Recombined(b);
  }

  lemma LowBitShows(a: bv32)
    ensures a & 1 == CrcBit(a) >> 31
    ensures a >> 1 == CrcBit(a) ^ (if a & 1 != 0 then 0xEDB8_8320 else 0)
  {
  }

  lemma Recombined(a: bv32)
    ensures a == ((a >> 1) << 1) | (a & 1)
  {
  }

  lemma {:induction false} BitsAreInjective(a: bv32, b: bv32, n: nat)
    requires CrcBits(a, n) == CrcBits(b, n)
    ensures a == b
  {
    hide CrcBit;
    if n > 0 {
      BitIsInjective(CrcBits(a, n - 1), CrcBits(b, n - 1));
      BitsAreInjective(a, b, n - 1);
    }
  }

  lemma MixIsInjective(a: bv32, b: bv32, x: byte)
    requires CrcMix(a, x) == CrcMix(b, x)
    ensures a == b
  {
    hide Wide;
    assert a == (a ^ Wide(x)) ^ Wide(x) && b == (b ^ Wide(x)) ^ Wide(x);
  }

  lemma MixSeparates(c: bv32, x: byte, y: byte)
    requires CrcMix(c, x) == CrcMix(c, y)
    ensures x == y
  {
    hide Wide;
    Cancelled(c, Wide(x), Wide(y));
    WideIsTheByte(x);
    WideIsTheByte(y);
  }

  lemma WideIsTheByte(x: byte)
    ensures Wide(x) as int == x
  {
    var y := Numbered(x);
    assert x as bv32 == y;
  }

  /** The bit vector of a byte, counted up to. */
  lemma {:induction false} Numbered(x: byte) returns (y: bv32)
    ensures y as int == x
  {
    if x == 0 {
      y := 0;
    } else {
      var z := Numbered(x - 1);
      NextNumber(z);
      y := z + 1;
    }
  }

  lemma NextNumber(y: bv32)
    requires y < 255
    ensures (y + 1) as int == y as int + 1
  {
  }

  lemma Cancelled(c: bv32, x: bv32, y: bv32)
    requires c ^ x == c ^ y
    ensures x == y
  {
    assert x == c ^ (c ^ x) && y == c ^ (c ^ y);
  }

  /** Once two registers differ, the same bytes behind them keep them apart. */
  lemma {:induction false} RegistersStayApart(a: Buffer, b: Buffer, tail: Buffer)
    requires CrcRegister(a) != CrcRegister(b)
    ensures CrcRegister(a + tail) != CrcRegister(b + tail)
    decreases |tail|
  {
    hide CrcBits, CrcMix;
    if tail == [] {
      assert a + tail == a && b + tail == b;
    } else {
      var n, x := |tail| - 1, tail[|tail| - 1];
      RegistersStayApart(a, b, tail[..n]);
      var p, q := a + tail[..n], b + tail[..n];
      assert a + tail == p + [x] && b + tail == q + [x];
      OneMoreByte(p, x);
      OneMoreByte(q, x);
      if CrcRegister(a + tail) == CrcRegister(b + tail) {
        BitsAreInjective(CrcMix(CrcRegister(p), x), CrcMix(CrcRegister(q), x), 8);
        MixIsInjective(CrcRegister(p), CrcRegister(q), x);
      }
    }
  }

  lemma OneMoreByte(s: Buffer, x: byte)
    ensures CrcRegister(s + [x]) == CrcBits(CrcMix(CrcRegister(s), x), 8)
  {
    hide CrcBits, CrcMix;
    assert (s + [x])[..|s|] == s;
  }

  /** A buffer damaged in a single byte, whichever it is, never keeps its checksum. */
  lemma DamagedByteIsNoticed(s: Buffer, i: nat, x: byte)
    requires i < |s| && x != s[i]
    ensures Crc32(s[i := x]) != Crc32(s)
  {
    hide CrcBits, CrcMix;
    var head, tail := s[..i], s[i + 1..];
    assert s == head + [s[i]] + tail && s[i := x] == head + [x] + tail;
    OneMoreByte(head, s[i]);
    OneMoreByte(head, x);
    if CrcRegister(head + [s[i]]) == CrcRegister(head + [x]) {
      BitsAreInjective(CrcMix(CrcRegister(head), s[i]), CrcMix(CrcRegister(head), x), 8);
      MixSeparates(CrcRegister(head), s[i], x);
    }
    RegistersStayApart(head + [s[i]], head + [x], tail);
    if Crc32(s) == Crc32(s[i := x]) {
      ResultIsInjective(CrcRegister(s), CrcRegister(s[i := x]));
    }
  }

  lemma ResultIsInjective(a: bv32, b: bv32)
    requires CrcResult(a) == CrcResult(b)
    ensures a == b
  {
    NumberBack(!a);
    NumberBack(!b);
    TwiceInverted(a);
    TwiceInverted(b);
  }

  lemma NumberBack(x: bv32)
    ensures (x as int) as bv32 == x
  {
  }

  lemma TwiceInverted(x: bv32)
    ensures !(!x) == x
  {
  }

  /** The firmware's bitwise loop computes it. */
  method ComputeCrc32(data: array<byte>, length: nat) returns (checksum: uint32)
    requires length <= data.Length
    ensures checksum == Crc32(data[..length])
  {
    hide CrcBit, CrcMix, CrcResult, Wide;
    var register: bv32 := 0xFFFF_FFFF;
    for index := 0 to length
      invariant register == CrcRegister(data[..index])
    {
      var mixed := CrcMix(register, data[index]);
      register := mixed;
      for bit := 0 to 8
        invariant register == CrcBits(mixed, bit)
      {
        register := CrcBit(register);
      }
      assert data[..index + 1][..index] == data[..index];
    }
    return CrcResult(register);
  }
}
