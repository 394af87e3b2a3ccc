/** Octets and big-endian fields. */
module Bytes {
  type Byte = x: int | 0 <= x < 256

  type U16 = x: int | 0 <= x < 0x1_0000

  type U32 = x: int | 0 <= x < 0x1_0000_0000

  datatype Option<+T> = None | Some(value: T)

  /** Limits of the packet format: symbols of a block, DATA payload and header bytes. */
  const MAX_SYMBOLS: nat := 256

  const MAX_DATA_PAYLOAD := 4096

  const DATA_HEADER := 26

  function ZeroBytes(n: nat): (z: seq<Byte>)
    ensures |z| == n && forall i :: 0 <= i < n ==> z[i] == 0
  {
    seq(n, _ => 0)
  }

  /** Signed distance of two block ids on the 32-bit circle. */
  function SerialDiff(a: U32, b: U32): int {
    var d := (a - b) % 0x1_0000_0000;
    if d < 0x8000_0000 then d else d - 0x1_0000_0000
  }

  function Be16(v: U16): (s: seq<Byte>)
    ensures |s| == 2
  {
    [v / 256, v % 256]
  }

  function Be32(v: U32): (s: seq<Byte>)
    ensures |s| == 4
  {
    [v / 0x100_0000, v / 0x1_0000 % 256, v / 256 % 256, v % 256]
  }

  function ReadBe16(s: seq<Byte>, off: nat): U16
    requires off + 2 <= |s|
  {
    256 * s[off] as int + s[off + 1]
  }

  function ReadBe32(s: seq<Byte>, off: nat): U32
    requires off + 4 <= |s|
  {
    0x100_0000 * s[off] as int + 0x1_0000 * s[off + 1] as int + 256 * s[off + 2] as int + s[off + 3]
  }

  /** A field read back where it was written. */
  lemma Be16RoundTrip(a: seq<Byte>, v: U16, b: seq<Byte>)
    ensures ReadBe16(a + Be16(v) + b, |a|) == v
  {
    var s := a + Be16(v) + b;
    assert s[|a|] == v / 256 && s[|a| + 1] == v % 256;
  }

  lemma Be32RoundTrip(a: seq<Byte>, v: U32, b: seq<Byte>)
    ensures ReadBe32(a + Be32(v) + b, |a|) == v
  {
    var s := a + Be32(v) + b;
    assert s[|a|] == v / 0x100_0000 && s[|a| + 1] == v / 0x1_0000 % 256;
    assert s[|a| + 2] == v / 256 % 256 && s[|a| + 3] == v % 256;
    Recomposed(v);
  }

  lemma Recomposed(v: U32)
    ensures 0x100_0000 * (v / 0x100_0000) + 0x1_0000 * (v / 0x1_0000 % 256) + 256 * (v / 256 % 256) + v % 256 == v
  {
    var q1 := v / 256;
    var q2 := q1 / 256;
    assert v / 0x1_0000 == q2 && v / 0x100_0000 == q2 / 256;
  }

  lemma Digits(a: Byte, b: Byte, c: Byte, d: Byte)
    ensures var v := 0x100_0000 * a as int + 0x1_0000 * b as int + 256 * c as int + d;
            v / 0x100_0000 == a && v / 0x1_0000 == 256 * a as int + b && v / 256 == 0x1_0000 * a as int + 256 * b as int + c
  {
  }

  /** A field written back as it was read. */
  lemma Be16Reprint(s: seq<Byte>)
    requires |s| >= 2
    ensures Be16(ReadBe16(s, 0)) == s[..2]
  {
  }

  lemma Digit(h: nat, l: Byte)
    ensures (256 * h + l) / 256 == h && (256 * h + l) % 256 == l
  {
  }

  lemma Be32Reprint(s: seq<Byte>)
    requires |s| >= 4
    ensures Be32(ReadBe32(s, 0)) == s[..4]
  {
    var a, b, c, d := s[0], s[1], s[2], s[3];
    Digits(a, b, c, d);
    Digit(0x1_0000 * a as int + 256 * b as int + c, d);
    Digit(256 * a as int + b, c);
    Digit(a, b);
    var v := ReadBe32(s, 0);
    assert v == 256 * (0x1_0000 * a as int + 256 * b as int + c) + d;
    assert v / 0x1_0000 % 256 == b && v / 256 % 256 == c && v % 256 == d;
  }

  /** Unsigned 64-bit difference of two times. */
  function Since(now: nat, past: nat): nat {
    (now - past) % 0x1_0000_0000_0000_0000
  }
}
