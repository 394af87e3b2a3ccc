/** Geometry of a frame block: the symbols a whole frame is cut into and their payloads. */
module FrameBlock {
  import opened Bytes
  import opened GaussJordan
  import opened Rlc

  const SOURCE_SUBHEADER := 4
  const REPAIR_SUBHEADER := 11
  const FRAME_META := 8
  const MIN_SYMBOL := 21

  /** The data_flags bits the block layer reads. */
  datatype DataFlags = DataFlags(endOfBlock: bool, fecRepair: bool, csaArmed: bool)

  datatype Packet = Packet(sequence: U32, blockId: U32, flags: DataFlags, payload: seq<Byte>)

  /** Number of source symbols of a frame of len bytes. */
  function SourceCount(len: nat, s: nat): (k: nat)
    requires len > 0 && s > 0
    ensures k > 0 && (k - 1) * s < len <= k * s
  {
    var q := (len - 1) / s;
    assert q * s <= len - 1 < (q + 1) * s;
    1 + q
  }

  lemma Offsets(k: nat, s: nat, i: nat, len: nat)
    requires i < k && (k - 1) * s < len <= k * s
    ensures i * s < len && (i < k - 1 ==> (i + 1) * s <= len) && (i + 1) * s == i * s + s
  {
    assert i * s <= (k - 1) * s by { Scale(i, k - 1, s); }
    if i < k - 1 { Scale(i + 1, k - 1, s); }
  }

  lemma Scale(a: nat, b: nat, s: nat)
    requires a <= b
    ensures a * s <= b * s
  {
    assert (b - a) * s >= 0;
    assert (b - a) * s == b * s - a * s;
  }

  /** Source symbol i as sent: s bytes, or what is left of the frame for the last one. */
  function Chunk(frame: seq<Byte>, s: nat, i: nat): seq<Byte>
    requires i * s < |frame|
  {
    if (i + 1) * s <= |frame| then frame[i * s..(i + 1) * s] else frame[i * s..]
  }

  function Pad(c: seq<Byte>, s: nat): (p: seq<Byte>)
    requires |c| <= s
    ensures |p| == s
  {
    c + ZeroBytes(s - |c|)
  }

  predicate Geometry(frame: seq<Byte>, k: nat, s: nat) {
    k > 0 && s > 0 && (k - 1) * s < |frame| <= k * s
  }

  lemma ChunkLength(frame: seq<Byte>, k: nat, s: nat, i: nat)
    requires Geometry(frame, k, s) && i < k
    ensures i * s < |frame| && 0 < |Chunk(frame, s, i)| <= s
    ensures i < k - 1 ==> |Chunk(frame, s, i)| == s
  {
    Offsets(k, s, i, |frame|);
  }

  /** The zero-padded source symbols. */
  function PaddedSource(frame: seq<Byte>, k: nat, s: nat, i: nat): (p: seq<Byte>)
    requires Geometry(frame, k, s) && i < k
    ensures |p| == s
  {
    ChunkLength(frame, k, s, i);
    Pad(Chunk(frame, s, i), s)
  }

  function Padded(frame: seq<Byte>, k: nat, s: nat): (x: Matrix)
    requires Geometry(frame, k, s)
    ensures |x| == k && forall i :: 0 <= i < k ==> x[i] == PaddedSource(frame, k, s, i)
  {
    seq(k, i requires 0 <= i < k => PaddedSource(frame, k, s, i))
  }

  /** The first n chunks in a row are the frame up to there. */
  function Joined(frame: seq<Byte>, k: nat, s: nat, n: nat): seq<Byte>
    requires Geometry(frame, k, s) && n <= k
  {
    if n == 0 then []
    else
      ChunkLength(frame, k, s, n - 1);
      Joined(frame, k, s, n - 1) + Chunk(frame, s, n - 1)
  }

  /** Chunk i as a stretch of the frame. */
  lemma ChunkStretch(frame: seq<Byte>, k: nat, s: nat, i: nat, lo: nat, hi: nat)
    requires Geometry(frame, k, s) && i < k && lo == i * s && hi == (i + 1) * s
    ensures hi == lo + s && lo < |frame|
    ensures i < k - 1 ==> hi <= |frame| && Chunk(frame, s, i) == frame[lo..hi]
    ensures i == k - 1 ==> hi >= |frame| && Chunk(frame, s, i) == frame[lo..]
  {
    Offsets(k, s, i, |frame|);
  }

  lemma PrefixStep(frame: seq<Byte>, lo: nat, hi: nat)
    requires lo <= hi <= |frame|
    ensures frame[..lo] + frame[lo..hi] == frame[..hi]
    ensures frame[..lo] + frame[lo..] == frame
  {
  }

  lemma {:induction false} JoinedPrefix(frame: seq<Byte>, k: nat, s: nat, n: nat)
    requires Geometry(frame, k, s) && n <= k
    ensures n < k ==> n * s <= |frame| && Joined(frame, k, s, n) == frame[..n * s]
    ensures n == k ==> Joined(frame, k, s, n) == frame
  {
    if n == 0 {
      assert n * s == 0;
      assert k > 0;
    } else {
      hide Geometry, Chunk;
      var lo, hi := (n - 1) * s, n * s;
      JoinedPrefix(frame, k, s, n - 1);
      ChunkStretch(frame, k, s, n - 1, lo, hi);
      PrefixStep(frame, lo, if n < k then hi else lo);
    }
  }

  lemma FlattenStep(x: Matrix, n: nat)
    requires 0 < n <= |x|
    ensures Flatten(x[..n]) == Flatten(x[..n - 1]) + x[n - 1]
  {
    assert x[..n][..n - 1] == x[..n - 1];
  }

  /** Trimming the padded symbols in a row to the frame length gives the frame back. */
  lemma {:induction false} FlattenPadded(frame: seq<Byte>, k: nat, s: nat, n: nat)
    requires Geometry(frame, k, s) && n <= k
    ensures Joined(frame, k, s, n) <= Flatten(Padded(frame, k, s)[..n])
    ensures n < k ==> Joined(frame, k, s, n) == Flatten(Padded(frame, k, s)[..n])
  {
    var x := Padded(frame, k, s);
    if n == 0 {
      assert x[..0] == [];
    } else {
      ChunkLength(frame, k, s, n - 1);
      assert x[n - 1] == Pad(Chunk(frame, s, n - 1), s);
      hide Geometry, Chunk, Padded, Pad, Flatten;
      FlattenPadded(frame, k, s, n - 1);
      FlattenStep(x, n);
      PaddingAppends(Flatten(x[..n - 1]), Chunk(frame, s, n - 1), s);
    }
  }

  lemma PaddingAppends(a: seq<Byte>, c: seq<Byte>, s: nat)
    requires |c| <= s
    ensures a + c <= a + Pad(c, s)
    ensures |c| == s ==> Pad(c, s) == c
  {
  }

  lemma TrimRecovers(frame: seq<Byte>, k: nat, s: nat)
    requires Geometry(frame, k, s)
    ensures var f := Flatten(Padded(frame, k, s)); |f| >= |frame| && f[..|frame|] == frame
  {
    FlattenPadded(frame, k, s, k);
    JoinedPrefix(frame, k, s, k);
    assert Padded(frame, k, s)[..k] == Padded(frame, k, s);
  }

  // ---- payloads ---------------------------------------------------------------------------

  function SourcePayload(k: U16, i: U16, chunk: seq<Byte>): seq<Byte> {
    Be16(k) + Be16(i) + chunk
  }

  function RepairPayload(j: Byte, k: U16, baseSeq: U32, frameLen: U32, coded: seq<Byte>): seq<Byte> {
    [j] + Be16(k) + Be32(baseSeq) + Be32(frameLen) + coded
  }

  lemma SourcePayloadFields(k: U16, i: U16, chunk: seq<Byte>)
    ensures var p := SourcePayload(k, i, chunk);
            |p| == SOURCE_SUBHEADER + |chunk| && ReadBe16(p, 0) == k && ReadBe16(p, 2) == i && p[SOURCE_SUBHEADER..] == chunk
  {
    var p := SourcePayload(k, i, chunk);
    assert p == [] + Be16(k) + (Be16(i) + chunk);
    Be16RoundTrip([], k, Be16(i) + chunk);
    Be16RoundTrip(Be16(k), i, chunk);
  }

  lemma RepairPayloadFields(j: Byte, k: U16, baseSeq: U32, frameLen: U32, coded: seq<Byte>)
    ensures var p := RepairPayload(j, k, baseSeq, frameLen, coded);
            |p| == REPAIR_SUBHEADER + |coded| && p[0] == j && ReadBe16(p, 1) == k && ReadBe32(p, 3) == baseSeq
            && ReadBe32(p, 7) == frameLen && p[REPAIR_SUBHEADER..] == coded
  {
    var p := RepairPayload(j, k, baseSeq, frameLen, coded);
    var head := [j] + Be16(k) + Be32(baseSeq);
    assert p == [j] + Be16(k) + (Be32(baseSeq) + Be32(frameLen) + coded);
    Be16RoundTrip([j], k, Be32(baseSeq) + Be32(frameLen) + coded);
    assert p == [j] + Be16(k) + Be32(baseSeq) + (Be32(frameLen) + coded);
    Be32RoundTrip([j] + Be16(k), baseSeq, Be32(frameLen) + coded);
    assert p == head + Be32(frameLen) + coded;
    Be32RoundTrip(head, frameLen, coded);
  }
}
