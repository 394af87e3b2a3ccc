/** Bit strings: binary numbers, Exp-Golomb codes, and the bit writer and reader of slice headers. */
module Bits {
  import opened Bytes

  type Bit = b: int | 0 <= b < 2

  function Pow2(n: nat): nat {
    if n == 0 then 1 else 2 * Pow2(n - 1)
  }

  lemma {:induction false} PowPositive(n: nat)
    ensures Pow2(n) >= 1
  {
    if n != 0 { PowPositive(n - 1); }
  }

  lemma {:induction false} PowMonotone(m: nat, n: nat)
    requires m <= n
    ensures Pow2(m) <= Pow2(n)
  {
    if m < n { PowMonotone(m, n - 1); }
  }

  /** The number a bit string spells. */
  function Value(s: seq<Bit>): nat {
    if s == [] then 0 else 2 * Value(s[..|s| - 1]) + s[|s| - 1]
  }

  lemma ValueEmpty()
    ensures Value([]) == 0
  {
  }

  lemma ValueAppend(s: seq<Bit>, b: Bit)
    ensures Value(s + [b]) == 2 * Value(s) + b
  {
    assert (s + [b])[..|s|] == s;
  }

  lemma Doubling(v: nat, p: nat)
    ensures v * (2 * p) == 2 * (v * p) == 2 * v * p
  {
  }

  /** The n low bits of v, most significant first. */
  function Binary(v: nat, n: nat): (s: seq<Bit>)
    ensures |s| == n
  {
    if n == 0 then [] else Binary(v / 2, n - 1) + [v % 2]
  }

  lemma {:induction false} ValueBinary(v: nat, n: nat)
    requires v < Pow2(n)
    ensures Value(Binary(v, n)) == v
  {
    if n != 0 {
      ValueBinary(v / 2, n - 1);
      ValueAppend(Binary(v / 2, n - 1), v % 2);
    }
  }

  /** v / 2^n, halving n times. */
  function ShiftRight(v: nat, n: nat): nat {
    if n == 0 then v else ShiftRight(v / 2, n - 1)
  }

  /** Writing the top bit first. */
  lemma {:induction false} BinaryTop(v: nat, n: nat)
    ensures Binary(v, n + 1) == [ShiftRight(v, n) % 2] + Binary(v, n)
    decreases n
  {
    if n == 0 {
      assert Binary(v / 2, 0) + [v % 2] == [v % 2] + Binary(v, 0);
    } else {
      BinaryTop(v / 2, n - 1);
    }
  }

  /** The number of bits of v after its leading one. */
  function Log2(v: nat): nat
    requires v > 0
  {
    if v == 1 then 0 else 1 + Log2(v / 2)
  }

  lemma {:induction false} Log2Bounds(v: nat)
    requires v > 0
    ensures Pow2(Log2(v)) <= v < Pow2(Log2(v) + 1) == 2 * Pow2(Log2(v))
  {
    if v != 1 { Log2Bounds(v / 2); }
  }

  lemma {:induction false} Log2Shift(v: nat, n: nat)
    requires v > 0
    ensures ShiftRight(v, n) > 1 <==> n < Log2(v)
    decreases n
  {
    if n != 0 {
      if v / 2 == 0 {
        ShiftZero(n - 1);
      } else {
        Log2Shift(v / 2, n - 1);
      }
    }
  }

  lemma {:induction false} ShiftZero(n: nat)
    ensures ShiftRight(0, n) == 0
  {
    if n != 0 { ShiftZero(n - 1); }
  }

  /** ue(v): as many zeros as v + 1 has bits after its leading one, then v + 1. */
  function ExpGolomb(v: nat): seq<Bit> {
    Binary(0, Log2(v + 1)) + Binary(v + 1, Log2(v + 1) + 1)
  }

  /** se(v). */
  function SignedGolomb(v: int): seq<Bit> {
    ExpGolomb(if v > 0 then 2 * v - 1 else -2 * v)
  }

  class BitWriter {
    var bits: seq<Bit>

    constructor ()
      ensures bits == []
    {
      bits := [];
    }

    method PutBit(b: Bit)
      modifies this
      ensures bits == old(bits) + [b]
    {
      bits := bits + [b];
    }

    /** The n low bits of v. */
    method U(v: nat, n: nat)
      modifies this
      ensures bits == old(bits) + Binary(v, n)
    {
      var m := n;
      while m > 0
        invariant 0 <= m <= n
        invariant bits + Binary(v, m) == old(bits) + Binary(v, n)
      {
        m := m - 1;
        BinaryTop(v, m);
        assert bits + Binary(v, m + 1) == bits + [ShiftRight(v, m) % 2] + Binary(v, m);
        bits := bits + [ShiftRight(v, m) % 2];
      }
      assert bits + Binary(v, 0) == bits;
    }

    method Ue(v: nat)
      modifies this
      ensures bits == old(bits) + ExpGolomb(v)
    {
      var w := v + 1;
      var n := 0;
      Log2Shift(w, 0);
      while ShiftRight(w, n) > 1
        invariant n <= Log2(w) && bits == old(bits)
        decreases Log2(w) - n
      {
        Log2Shift(w, n);
        n := n + 1;
      }
      Log2Shift(w, n);
      assert n == Log2(w);
      U(0, n);
      U(w, n + 1);
      assert ExpGolomb(v) == Binary(0, n) + Binary(w, n + 1);
    }

    method Se(v: int)
      modifies this
      ensures bits == old(bits) + SignedGolomb(v)
    {
      Ue(if v > 0 then 2 * v - 1 else -2 * v);
    }

    /** Bits [begin, end) of a byte string. */
    method CopyBits(rbsp: seq<Byte>, begin: nat, end: nat)
      requires begin <= end <= 8 * |rbsp|
      modifies this
      ensures bits == old(bits) + Unpacked(rbsp)[begin..end]
    {
      var p := begin;
      while p < end
        invariant begin <= p <= end
        invariant bits == old(bits) + Unpacked(rbsp)[begin..p]
      {
        bits := bits + [BitOf(rbsp, p)];
        assert Unpacked(rbsp)[begin..p + 1] == Unpacked(rbsp)[begin..p] + [Unpacked(rbsp)[p]];
        p := p + 1;
      }
    }

    method AlignZero()
      modifies this
      ensures bits == Aligned(old(bits))
    {
      hide Aligned;
      AlignedStep(bits);
      while |bits| % 8 != 0
        invariant Aligned(bits) == Aligned(old(bits)) && |bits| <= |Aligned(old(bits))|
        decreases |Aligned(old(bits))| - |bits|
      {
        AlignedStep(bits);
        bits := bits + [0];
        AlignedStep(bits);
      }
    }

    /** byte_alignment(): one 1 and zeros. */
    method AlignHeader()
      modifies this
      ensures bits == Aligned(old(bits) + [1])
    {
      bits := bits + [1];
      AlignZero();
    }
  }

  /** Zero bits up to a byte boundary. */
  function Aligned(s: seq<Bit>): (r: seq<Bit>)
    ensures |r| % 8 == 0 && s <= r && |r| < |s| + 8
    ensures forall i :: |s| <= i < |r| ==> r[i] == 0
    decreases (8 - |s| % 8) % 8
  {
    if |s| % 8 == 0 then s else Aligned(s + [0])
  }

  lemma AlignedStep(s: seq<Bit>)
    ensures |s| % 8 == 0 ==> Aligned(s) == s
    ensures |s| % 8 != 0 ==> Aligned(s) == Aligned(s + [0])
    ensures |s| <= |Aligned(s)|
  {
  }

  // ---- bits of bytes -----------------------------------------------------------------

  /** Bit p of a byte string, most significant first. */
  function BitOf(d: seq<Byte>, p: nat): Bit
    requires p < 8 * |d|
  {
    ShiftRight(d[p / 8], 7 - p % 8) % 2
  }

  function Unpacked(d: seq<Byte>): (s: seq<Bit>)
    ensures |s| == 8 * |d|
  {
    seq(8 * |d|, p requires 0 <= p < 8 * |d| => BitOf(d, p))
  }

  /** Eight bits as a byte. */
  function ByteOf(s: seq<Bit>): Byte
    requires |s| == 8
  {
    128 * s[0] as int + 64 * s[1] as int + 32 * s[2] as int + 16 * s[3] as int
    + 8 * s[4] as int + 4 * s[5] as int + 2 * s[6] as int + s[7] as int
  }

  function Packed(s: seq<Bit>): (d: seq<Byte>)
    requires |s| % 8 == 0
    ensures 8 * |d| == |s|
  {
    if s == [] then [] else [ByteOf(s[..8])] + Packed(s[8..])
  }

  lemma ByteBits(s: seq<Bit>, j: nat)
    requires |s| == 8 && j < 8
    ensures ShiftRight(ByteOf(s), 7 - j) % 2 == s[j]
  {
    hide ShiftRight;
    var b := ByteOf(s);
    ShiftLast(b, 0);
    var b1 := ShiftRight(b, 1);
    ShiftLast(b, 1);
    var b2 := ShiftRight(b, 2);
    ShiftLast(b, 2);
    var b3 := ShiftRight(b, 3);
    assert b3 == 16 * s[0] as int + 8 * s[1] as int + 4 * s[2] as int + 2 * s[3] as int + s[4];
    ShiftLast(b, 3);
    ShiftLast(b, 4);
    ShiftLast(b, 5);
    var b6 := ShiftRight(b, 6);
    assert b6 == 2 * s[0] as int + s[1];
    ShiftLast(b, 6);
  }

  lemma {:induction false} ShiftLast(v: nat, n: nat)
    ensures ShiftRight(v, 0) == v
    ensures ShiftRight(v, n + 1) == ShiftRight(v, n) / 2
    decreases n
  {
    if n != 0 { ShiftLast(v / 2, n - 1); }
  }

  /** Unpacking inverts packing. */
  lemma {:induction false} UnpackPacked(s: seq<Bit>)
    requires |s| % 8 == 0
    ensures Unpacked(Packed(s)) == s
    decreases |s|
  {
    hide ByteOf, ShiftRight;
    if s != [] {
      UnpackPacked(s[8..]);
      var d := Packed(s);
      assert d[0] == ByteOf(s[..8]) && d[1..] == Packed(s[8..]);
      forall p | 0 <= p < |s| ensures BitOf(d, p) == s[p] {
        if p < 8 {
          ByteBits(s[..8], p);
        } else {
          assert (p - 8) / 8 == p / 8 - 1 && (p - 8) % 8 == p % 8;
          assert d[p / 8] == d[1..][p / 8 - 1];
          assert BitOf(d, p) == BitOf(d[1..], p - 8) == Unpacked(d[1..])[p - 8] == s[8..][p - 8];
        }
      }
    }
  }

  lemma {:induction false} PackedAppend(a: seq<Bit>, b: seq<Bit>)
    requires |a| % 8 == 0 && |b| % 8 == 0
    ensures Packed(a + b) == Packed(a) + Packed(b)
    decreases |a|
  {
    hide ByteOf;
    if a == [] {
      assert a + b == b;
    } else {
      PackedAppend(a[8..], b);
      assert (a + b)[..8] == a[..8] && (a + b)[8..] == a[8..] + b;
    }
  }

  lemma UnpackedAppend(a: seq<Byte>, b: seq<Byte>)
    ensures Unpacked(a + b) == Unpacked(a) + Unpacked(b)
  {
    hide ShiftRight;
    forall p | 0 <= p < 8 * |a + b| ensures Unpacked(a + b)[p] == (Unpacked(a) + Unpacked(b))[p] {
      if p < 8 * |a| {
        assert (a + b)[p / 8] == a[p / 8];
      } else {
        assert (p - 8 * |a|) / 8 == p / 8 - |a| && (p - 8 * |a|) % 8 == p % 8;
        assert (a + b)[p / 8] == b[p / 8 - |a|];
      }
    }
  }

  // ---- reading -------------------------------------------------------------------------

  /** A value read and the position after it, or an overrun. */
  datatype Read = Got(value: int, pos: nat) | Overrun

  function ReadU(b: seq<Bit>, pos: nat, n: nat): Read {
    if pos + n <= |b| then Got(Value(b[pos..pos + n]), pos + n) else Overrun
  }

  /** Zeros from pos to the next one, or to the end. */
  function Zeros(b: seq<Bit>, pos: nat): nat
    decreases |b| - pos
  {
    if pos < |b| && b[pos] == 0 then 1 + Zeros(b, pos + 1) else 0
  }

  const MAX_PREFIX := 31

  function ReadUe(b: seq<Bit>, pos: nat): Read {
    var z := Zeros(b, pos);
    if pos + z >= |b| || z > MAX_PREFIX || pos + 2 * z + 1 > |b| then Overrun
    else Got(Pow2(z) - 1 + Value(b[pos + z + 1..pos + 2 * z + 1]), pos + 2 * z + 1)
  }

  function ReadSe(b: seq<Bit>, pos: nat): Read {
    match ReadUe(b, pos)
    case Overrun => Overrun
    case Got(k, p) => Got(if k % 2 == 1 then (k + 1) / 2 else -(k / 2), p)
  }

  /** b has the bits w at pos. */
  predicate Holds(b: seq<Bit>, pos: nat, w: seq<Bit>) {
    pos + |w| <= |b| && b[pos..pos + |w|] == w
  }

  lemma URoundTrip(b: seq<Bit>, pos: nat, v: nat, n: nat)
    requires v < Pow2(n) && Holds(b, pos, Binary(v, n))
    ensures ReadU(b, pos, n) == Got(v, pos + n)
  {
    ValueBinary(v, n);
  }

  lemma {:induction false} ZerosRun(b: seq<Bit>, pos: nat, z: nat)
    requires pos + z < |b| && b[pos + z] == 1 && forall i :: pos <= i < pos + z ==> b[i] == 0
    ensures Zeros(b, pos) == z
    decreases z
  {
    if z != 0 { ZerosRun(b, pos + 1, z - 1); }
  }

  lemma {:induction false} BinaryZero(n: nat)
    ensures forall i :: 0 <= i < n ==> Binary(0, n)[i] == 0
  {
    if n != 0 { BinaryZero(n - 1); }
  }

  /** v's binary form on one more bit than Log2 starts with a one, and the rest is v without it. */
  lemma LeadingOne(v: nat)
    requires v > 0
    ensures Binary(v, Log2(v) + 1)[0] == 1
    ensures Value(Binary(v, Log2(v) + 1)[1..]) == v - Pow2(Log2(v))
  {
    var n := Log2(v);
    Log2Bounds(v);
    BinaryTop(v, n);
    TopQuotient(v, n);
    assert Binary(v, n + 1)[1..] == Binary(v, n);
    LowBits(v, n);
  }

  lemma {:induction false} TopQuotient(v: nat, n: nat)
    requires Pow2(n) <= v < 2 * Pow2(n)
    ensures ShiftRight(v, n) == 1
    decreases n
  {
    if n != 0 { TopQuotient(v / 2, n - 1); }
  }

  lemma {:induction false} LowBits(v: nat, n: nat)
    requires Pow2(n) <= v < 2 * Pow2(n)
    ensures Value(Binary(v, n)) == v - Pow2(n)
    decreases n
  {
    if n != 0 {
      LowBits(v / 2, n - 1);
      ValueAppend(Binary(v / 2, n - 1), v % 2);
    }
  }

  /** Indexing through a held string. */
  lemma HoldsAt(b: seq<Bit>, pos: nat, w: seq<Bit>, i: nat)
    requires Holds(b, pos, w) && i < |w|
    ensures b[pos + i] == w[i]
  {
    assert b[pos..pos + |w|][i] == w[i];
  }

  /** A concatenation is held piece by piece. */
  lemma HoldsSplit(b: seq<Bit>, pos: nat, u: seq<Bit>, w: seq<Bit>)
    ensures Holds(b, pos, u + w) <==> Holds(b, pos, u) && Holds(b, pos + |u|, w)
  {
    if Holds(b, pos, u + w) {
      assert b[pos..pos + |u|] == (u + w)[..|u|];
      assert b[pos + |u|..pos + |u| + |w|] == (u + w)[|u|..];
    }
    if Holds(b, pos, u) && Holds(b, pos + |u|, w) {
      assert b[pos..pos + |u + w|] == b[pos..pos + |u|] + b[pos + |u|..pos + |u| + |w|];
    }
  }

  /** ue round trip, for every value a 32-bit code holds. */
  lemma UeRoundTrip(b: seq<Bit>, pos: nat, v: nat)
    requires v < 0xFFFF_FFFF && Holds(b, pos, ExpGolomb(v))
    ensures ReadUe(b, pos) == Got(v, pos + |ExpGolomb(v)|)
  {
    hide Binary, Value, Pow2, Log2, Zeros;
    var z := Log2(v + 1);
    Log2Bounds(v + 1);
    if z > MAX_PREFIX { PowMonotone(32, z); Pow32(); }
    var head, tail := Binary(0, z), Binary(v + 1, z + 1);
    HoldsSplit(b, pos, head, tail);
    BinaryZero(z);
    LeadingOne(v + 1);
    forall i | pos <= i < pos + z ensures b[i] == 0 { HoldsAt(b, pos, head, i - pos); }
    HoldsAt(b, pos + z, tail, 0);
    ZerosRun(b, pos, z);
    assert b[pos + z + 1..pos + 2 * z + 1] == b[pos + z..pos + z + |tail|][1..] == tail[1..];
  }

  lemma Pow32()
    ensures Pow2(32) == 0x1_0000_0000
  {
    assert Pow2(12) == 0x1000;
    assert Pow2(22) == 0x40_0000;
  }

  /** se round trip. */
  lemma SeRoundTrip(b: seq<Bit>, pos: nat, v: int)
    requires -0x4000_0000 < v < 0x4000_0000 && Holds(b, pos, SignedGolomb(v))
    ensures ReadSe(b, pos) == Got(v, pos + |SignedGolomb(v)|)
  {
    UeRoundTrip(b, pos, if v > 0 then 2 * v - 1 else -2 * v);
  }

  class BitReader {
    const d: seq<Byte>
    var pos: nat
    var fail: bool

    ghost predicate Valid()
      reads this
    {
      pos <= 8 * |d|
    }

    constructor (bytes: seq<Byte>)
      ensures d == bytes && pos == 0 && !fail && Valid()
    {
      d := bytes;
      pos, fail := 0, false;
    }

    /** Read n bits; an overrun is remembered. */
    method U(n: nat) returns (v: nat)
      requires Valid()
      modifies this
      ensures Valid()
      ensures match ReadU(Unpacked(d), old(pos), n)
              case Got(w, p) => v == w && pos == p && fail == old(fail)
              case Overrun => v == 0 && fail
    {
      ghost var b := Unpacked(d);
      ghost var start := pos;
      v := 0;
      ValueEmpty();
      assert b[start..start] == [];
      var m := n;
      while m > 0
        invariant 0 <= m <= n && Valid() && pos == start + (n - m) && fail == old(fail)
        invariant v == Value(b[start..pos])
      {
        m := m - 1;
        if pos >= 8 * |d| {
          fail := true;
          return 0;
        }
        assert b[start..pos + 1] == b[start..pos] + [b[pos]];
        ValueAppend(b[start..pos], b[pos]);
        v := 2 * v + BitOf(d, pos);
        pos := pos + 1;
      }
    }

    /** An unsigned Exp-Golomb code; more than 31 leading zeros are a failure. */
    method Ue() returns (v: nat)
      requires Valid()
      modifies this
      ensures Valid() && (old(fail) ==> fail)
      ensures !old(fail) ==>
        match ReadUe(Unpacked(d), old(pos))
        case Got(w, p) => v == w && pos == p && !fail
        case Overrun => fail
    {
      hide Pow2, Value, BitOf, Unpacked;
      ghost var b := Unpacked(d);
      ghost var start := pos;
      var zeros := 0;
      while !fail
        invariant Valid() && (old(fail) ==> fail)
        invariant !fail ==> zeros <= MAX_PREFIX && pos == start + zeros && Zeros(b, start) == zeros + Zeros(b, pos)
        invariant !old(fail) && fail ==> ReadUe(b, start) == Overrun
        decreases !fail, 32 - zeros
      {
        ghost var at := pos;
        OneBit(b, pos);
        var bit := U(1);
        if bit != 0 {
          break;
        }
        zeros := zeros + 1;
        if zeros > MAX_PREFIX {
          fail := true;
          return 0;
        }
      }
      if fail {
        return 0;
      }
      PowPositive(zeros);
      v := Pow2(zeros) - 1;
      if zeros != 0 {
        var low := U(zeros);
        v := v + low;
      } else {
        assert b[pos..pos] == [];
        ValueEmpty();
      }
    }

    method Se() returns (v: int)
      requires Valid()
      modifies this
      ensures Valid() && (old(fail) ==> fail)
      ensures !old(fail) ==>
        match ReadSe(Unpacked(d), old(pos))
        case Got(w, p) => v == w && pos == p && !fail
        case Overrun => fail
    {
      var k := Ue();
      v := if k % 2 == 1 then (k + 1) / 2 else -(k as int / 2);
    }
  }

  /** Reading one bit. */
  lemma OneBit(b: seq<Bit>, pos: nat)
    ensures ReadU(b, pos, 1) == if pos < |b| then Got(b[pos] as int, pos + 1) else Overrun
  {
    if pos < |b| {
      assert b[pos..pos + 1] == [] + [b[pos]];
      ValueAppend([], b[pos]);
    }
  }
}
