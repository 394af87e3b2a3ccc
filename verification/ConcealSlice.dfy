/**
 * A complete concealment NAL unit: the header with the entry points of its substreams, the payload, emulation
 * prevention; and what a decoder finds in it.
 */
module ConcealSlice {
  import opened Bytes
  import opened Bits
  import opened Cabac
  import opened NalUnit
  import opened CodingTree
  import opened SliceSyntax
  import opened SliceParser
  import opened SliceWriter
  import opened SliceHeader
  import opened SlicePlan
  import opened SlicePayload
  import opened SliceDecoder

  // ---- bytes of substreams ---------------------------------------------------------------------

  ghost function SegmentBytes(s: Segment): (d: seq<Byte>)
    requires Sound(s)
    ensures 8 * |d| == |SegmentBits(s)|
  {
    Packed(SegmentBits(s))
  }

  ghost function PayloadBytes(segments: seq<Segment>): (d: seq<Byte>)
    requires AllSound(segments)
    ensures 8 * |d| == |AllBits(segments)|
  {
    Packed(AllBits(segments))
  }

  lemma PayloadAppend(segments: seq<Segment>)
    requires AllSound(segments) && segments != []
    ensures PayloadBytes(segments)
      == PayloadBytes(segments[..|segments| - 1]) + SegmentBytes(segments[|segments| - 1])
  {
    hide SegmentBits, Packed;
    PackedAppend(AllBits(segments[..|segments| - 1]), SegmentBits(segments[|segments| - 1]));
  }

  /** The escaped substreams, one after the other. */
  ghost function EscapedSegments(segments: seq<Segment>): seq<Byte>
    requires AllSound(segments)
  {
    if segments == [] then []
    else EscapedSegments(segments[..|segments| - 1]) + Escaped(0, SegmentBytes(segments[|segments| - 1]))
  }

  lemma LastSegment(segments: seq<Segment>)
    requires AllSound(segments) && segments != []
    ensures AllSound(segments[..|segments| - 1]) && Sound(segments[|segments| - 1])
    ensures EscapedSegments(segments)
      == EscapedSegments(segments[..|segments| - 1]) + Escaped(0, SegmentBytes(segments[|segments| - 1]))
  {
    hide SegmentBytes, Sound, Escaped;
  }

  lemma LastStart(segments: seq<Segment>)
    requires AllSound(segments) && segments != []
    ensures SegmentStarts(segments) == SegmentStarts(segments[..|segments| - 1]) + [|PayloadBytes(segments)|]
    ensures var s := SegmentStarts(segments[..|segments| - 1]);
      |s| == |segments| && s[|s| - 1] == |PayloadBytes(segments[..|segments| - 1])|
  {
    hide AllBits, Packed;
  }

  lemma Pieces(a: seq<Byte>, b: seq<Byte>, from: nat, to: nat)
    requires from <= to <= |a|
    ensures (a + b)[from..to] == a[from..to] && (a + b)[|a|..|a + b|] == b
  {
  }

  /** The substreams lie one after the other, at their starts. */
  lemma {:induction false} SegmentAt(segments: seq<Segment>, i: nat)
    requires AllSound(segments) && i < |segments|
    ensures var s := SegmentStarts(segments);
      s[i] <= s[i + 1] <= |PayloadBytes(segments)| && PayloadBytes(segments)[s[i]..s[i + 1]] == SegmentBytes(segments[i])
    decreases |segments|
  {
    hide *;
    LastSegment(segments);
    var init := segments[..|segments| - 1];
    var a, b := PayloadBytes(init), SegmentBytes(segments[|segments| - 1]);
    PayloadAppend(segments);
    LastStart(segments);
    if i < |init| {
      SegmentAt(init, i);
      Pieces(a, b, SegmentStarts(init)[i], SegmentStarts(init)[i + 1]);
    } else {
      Pieces(a, b, 0, 0);
    }
  }

  lemma ZeroByteBits(d: seq<Byte>, p: nat)
    requires p < 8 * |d| && d[p / 8] == 0
    ensures BitOf(d, p) == 0
  {
    ShiftZero(7 - p % 8);
  }

  /** Bits that end in a one, aligned with zeros, end in a nonzero byte. */
  lemma LastByte(s: seq<Bit>)
    requires s != [] && s[|s| - 1] == 1
    ensures var d := Packed(Aligned(s)); d != [] && d[|d| - 1] != 0
  {
    var d := Packed(Aligned(s));
    UnpackPacked(Aligned(s));
    hide Packed, Aligned, BitOf;
    var p := |s| - 1;
    assert p / 8 == |d| - 1;
    assert Unpacked(d)[p] == BitOf(d, p) == 1;
    if d[|d| - 1] == 0 { ZeroByteBits(d, p); }
  }

  lemma SegmentEnds(s: Segment)
    requires Sound(s)
    ensures SegmentBytes(s) != [] && SegmentBytes(s)[|SegmentBytes(s)| - 1] != 0
  {
    RoundTrip(s.ctxs, s.ops);
    LastByte(SegmentOut(s));
  }

  // ---- entry points ------------------------------------------------------------------------------

  /** Escaped lengths of all substreams but the last. */
  ghost function EntryLengths(segments: seq<Segment>): (e: seq<nat>)
    requires AllSound(segments) && segments != []
    ensures |e| == |segments| - 1
  {
    seq(|segments| - 1, i requires 0 <= i < |segments| - 1 => |Escaped(0, SegmentBytes(segments[i]))|)
  }

  lemma EntriesPositive(segments: seq<Segment>)
    requires AllSound(segments) && segments != []
    ensures Positive(EntryLengths(segments))
  {
    hide SegmentBytes;
    forall i | 0 <= i < |segments| - 1 ensures EntryLengths(segments)[i] >= 1 {
      SegmentEnds(segments[i]);
      EscapedLength(SegmentBytes(segments[i]));
    }
  }

  /** Escaped length of bytes [from, to): their number and one more per inserted byte. */
  method EscapedSize(s: seq<Byte>, from: nat, to: nat) returns (n: nat)
    requires from <= to <= |s|
    ensures n == |Escaped(0, s[from..to])|
  {
    var esc, zeros := 0, 0;
    var b := from;
    while b < to
      invariant from <= b <= to
      invariant b - from + esc + |Escaped(zeros, s[b..to])| == |Escaped(0, s[from..to])|
    {
      var c := s[b];
      assert s[b..to][1..] == s[b + 1..to];
      if zeros >= 2 && c <= 3 {
        esc := esc + 1;
        zeros := 0;
      }
      zeros := if c == 0 then zeros + 1 else 0;
      b := b + 1;
    }
    assert s[b..to] == [];
    n := to - from + esc;
  }

  lemma TakeNext(s: seq<nat>, i: nat)
    requires i < |s|
    ensures s[..i + 1] == s[..i] + [s[i]]
  {
  }

  method EntryPoints(payload: seq<Byte>, starts: seq<nat>, ghost segments: seq<Segment>) returns (entries: seq<nat>)
    requires AllSound(segments) && segments != []
    requires payload == PayloadBytes(segments) && starts == SegmentStarts(segments)[..|segments|]
    ensures entries == EntryLengths(segments)
  {
    hide PayloadBytes, SegmentBytes, SegmentStarts, Escaped, Sound;
    ghost var lengths := EntryLengths(segments);
    entries := [];
    var i := 0;
    while i + 1 < |starts|
      invariant 0 <= i < |starts| && entries == lengths[..i]
    {
      SegmentAt(segments, i);
      TakeNext(lengths, i);
      var n := EscapedSize(payload, starts[i], starts[i + 1]);
      entries := entries + [n];
      i := i + 1;
    }
  }

  // ---- the unit ----------------------------------------------------------------------------------

  /** The picture in minimum coding blocks. */
  function GeometryOf(sps: Sps): Geometry
    requires sps.log2MinCb <= sps.log2Ctb
  {
    var m := sps.log2MinCb;
    Geometry(ShiftRight(sps.width, m), ShiftRight(sps.height, m), sps.log2Ctb - m, sps.widthCtbs)
  }

  predicate Multiple(n: nat, log2: nat) {
    ShiftRight(n, log2) * Pow2(log2) == n
  }

  /** What the SPS parser derives, and picture sides that are multiples of the minimum coding block. */
  predicate Shaped(sps: Sps) {
    && sps.log2MinCb <= sps.log2Ctb && WellShaped(GeometryOf(sps)) && sps.addrBits == BitsFor(sps.sizeCtbs)
    && Multiple(sps.width, sps.log2MinCb) && Multiple(sps.height, sps.log2MinCb)
  }

  /** The end of the CTUs asked for, in the writer's 32 bits. */
  function End32(want: Wanted, count: nat): nat {
    (want.address + count) % 0x1_0000_0000
  }

  /** Stream shapes and donors the writer does not take, wherever the CTUs lie. */
  predicate Objects(sps: Sps, pps: Pps, donor: Slice, want: Wanted, count: nat) {
    var pic, kind, nalType := donor.header.pic, donor.header.head.kind, NalType(donor.header0);
    || pps.tiles || pps.bypass || !pic.hasPoc || kind == KIND_I || IsIrap(nalType)
    || (want.poc.Some? && nalType <= 14 && nalType % 2 == 0)
    || sps.sizeCtbs == 0 || count == 0
    || pic.end < pic.begin || pic.end > 8 * |donor.rbsp|
    || (pps.weightedPred && kind == KIND_P) || (pps.weightedBipred && kind == KIND_B)
  }

  predicate Refuses(sps: Sps, pps: Pps, donor: Slice, want: Wanted, count: nat) {
    Objects(sps, pps, donor, want, count) || End32(want, count) > sps.sizeCtbs
  }

  /** One call of the writer. */
  datatype Job = Job(sps: Sps, pps: Pps, donor: Slice, want: Wanted, count: nat)

  /** What the parts of the unit take for granted. */
  predicate Sized(j: Job) {
    && j.sps.log2MinCb <= j.sps.log2Ctb && j.sps.widthCtbs > 0 && j.count > 0
    && j.donor.header.pic.begin <= j.donor.header.pic.end <= 8 * |j.donor.rbsp|
  }

  /** The writer's sum finds a request past the picture exactly when it does not wrap, or wraps past the picture again. */
  lemma PastPicture(sps: Sps, want: Wanted, count: nat)
    requires want.address < 0x1_0000_0000 && count < 0x1_0000_0000 && want.address + count > sps.sizeCtbs
    ensures End32(want, count) > sps.sizeCtbs
            <==> want.address + count < 0x1_0000_0000 || want.address + count > 0x1_0000_0000 + sps.sizeCtbs
  {
    if want.address + count >= 0x1_0000_0000 { assert End32(want, count) == want.address + count - 0x1_0000_0000; }
  }

  /** A unit is appended exactly when nothing else is objected to and the CTUs end in the picture, or 2^32 past it. */
  lemma AppendsExactly(sps: Sps, pps: Pps, donor: Slice, want: Wanted, count: nat)
    requires want.address < 0x1_0000_0000 && count < 0x1_0000_0000 && sps.sizeCtbs < 0x1_0000_0000
    ensures !Refuses(sps, pps, donor, want, count)
            <==> !Objects(sps, pps, donor, want, count)
                 && (want.address + count <= sps.sizeCtbs || 0x1_0000_0000 <= want.address + count <= 0x1_0000_0000 + sps.sizeCtbs)
  {
    hide Objects;
    if want.address + count > sps.sizeCtbs { PastPicture(sps, want, count); }
  }

  /** The CTUs asked for end within 32 bits. */
  predicate Unwrapped(j: Job) {
    j.want.address + j.count < 0x1_0000_0000
  }

  predicate Accepted(j: Job) {
    Sized(j) && Shaped(j.sps) && Unwrapped(j) && !Refuses(j.sps, j.pps, j.donor, j.want, j.count)
  }

  ghost function Segments(j: Job): (s: seq<Segment>)
    requires Sized(j)
    ensures AllSound(s) && s != [] && (!j.pps.wpp ==> |s| == 1)
  {
    var g, qp := GeometryOf(j.sps), j.pps.initQp + j.donor.header.qpDelta;
    PlanSound(g, j.pps.wpp, qp, j.want.address, j.count);
    if !j.pps.wpp then OneSegment(g, qp, j.want.address, j.count - 1); Plan(g, false, qp, j.want.address, j.count)
    else Plan(g, true, qp, j.want.address, j.count)
  }

  ghost function Entries(j: Job): (e: seq<nat>)
    requires Sized(j)
    ensures Positive(e) && (!j.pps.wpp ==> e == []) && |e| == |Segments(j)| - 1
  {
    EntriesPositive(Segments(j));
    EntryLengths(Segments(j))
  }

  ghost function Prefix(j: Job): seq<Bit>
    requires Sized(j)
  {
    PrefixBits(j.sps, j.pps, j.donor, j.want)
  }

  /** The header before alignment. */
  ghost function Unaligned(j: Job): seq<Bit>
    requires Sized(j)
  {
    Prefix(j) + TailBits(j.pps, Entries(j)) + [1]
  }

  ghost function HeaderBytes(j: Job): seq<Byte>
    requires Sized(j)
  {
    Packed(Aligned(Unaligned(j)))
  }

  ghost function Rbsp(j: Job): seq<Byte>
    requires Sized(j)
  {
    HeaderBytes(j) + PayloadBytes(Segments(j))
  }

  /** Without WPP there is one substream. */
  lemma {:induction false} OneSegment(g: Geometry, qp: int, first: nat, n: nat)
    requires g.ctbs > 0
    ensures WalkTo(g, false, qp, first, n).finished == []
  {
    hide CtxsAfter, EmitCtu, RowStart, FreshContexts;
    if n != 0 { OneSegment(g, qp, first, n - 1); }
  }

  /** The zeros the escaping starts with, after the NAL header. */
  function HeaderZeros(donor: Slice): nat {
    if donor.header1 == 0 then if donor.header0 == 0 then 2 else 1 else 0
  }

  lemma SizedShape(j: Job)
    requires Sized(j)
    ensures j.sps.log2MinCb <= j.sps.log2Ctb && j.sps.widthCtbs > 0 && j.count > 0
  {
  }

  lemma AcceptedShape(j: Job)
    requires Accepted(j)
    ensures Sized(j) && WellShaped(GeometryOf(j.sps)) && j.sps.log2MinCb <= j.sps.log2Ctb && j.count > 0
  {
    hide WellShaped, Multiple, BitsFor;
  }

  /** One CTU whose place, in 32 bits, lies below the picture: nothing of it is coded. */
  predicate BelowPicture(j: Job) {
    && j.count == 1 && j.want.address < 0x1_0000_0000 && j.sps.widthCtbs > 0
    && j.want.address / j.sps.widthCtbs * Pow2(j.sps.log2Ctb) % 0x1_0000_0000 >= j.sps.height
  }

  lemma TakenShape(j: Job)
    requires Shaped(j.sps) && !Refuses(j.sps, j.pps, j.donor, j.want, j.count)
    ensures Sized(j) && WellShaped(GeometryOf(j.sps)) && (Unwrapped(j) ==> Accepted(j))
  {
    hide Multiple, BitsFor;
  }

  /** The payload, and the escaped lengths of its substreams but the last. */
  method MakePayload(j: Job) returns (bytes: seq<Byte>, entries: seq<nat>)
    requires Sized(j) && WellShaped(GeometryOf(j.sps))
    ensures bytes == PayloadBytes(Segments(j)) && entries == Entries(j)
  {
    hide *;
    SizedShape(j);
    PlanOf(j);
    var payload, starts := BuildPayload(GeometryOf(j.sps), j.pps.wpp, j.pps.initQp + j.donor.header.qpDelta,
                                        j.want.address, j.count);
    bytes := Packed(payload);
    PayloadIs(Segments(j));
    entries := EntryPoints(bytes, starts, Segments(j));
    EntriesAre(j);
  }

  method MakeHeader(j: Job, entries: seq<nat>) returns (bytes: seq<Byte>)
    requires Sized(j) && entries == Entries(j)
    ensures bytes == HeaderBytes(j)
  {
    hide *;
    var bw := new BitWriter();
    HeaderIs(j);
    WriteConcealHeader(bw, j.sps, j.pps, j.donor, j.want, entries);
    bytes := Packed(bw.bits);
  }

  /** Append a concealment slice of count CTUs, or refuse and leave out alone. */
  method MakeConcealSlice(j: Job, out: seq<Byte>) returns (ok: bool, out': seq<Byte>)
    requires Shaped(j.sps) && (Unwrapped(j) || BelowPicture(j))
    ensures ok == !Refuses(j.sps, j.pps, j.donor, j.want, j.count) && (Unwrapped(j) ==> ok == Accepted(j)) && (ok ==> Sized(j))
    ensures out' == if !ok then out
                    else out + [0, 0, 0, 1, j.donor.header0, j.donor.header1] + Escaped(HeaderZeros(j.donor), Rbsp(j))
  {
    ok := !Refuses(j.sps, j.pps, j.donor, j.want, j.count);
    if !ok {
      return ok, out;
    }
    TakenShape(j);
    hide Shaped, Refuses, Segments, PayloadBytes, HeaderBytes, Escaped;
    var payload, entries := MakePayload(j);
    var header := MakeHeader(j, entries);
    out' := EscapeAppend(header + payload, j.donor.header0, j.donor.header1, out);
  }

  lemma EntriesAre(j: Job)
    requires Sized(j)
    ensures Entries(j) == EntryLengths(Segments(j))
  {
    hide Segments, Sound;
  }

  lemma PayloadIs(segments: seq<Segment>)
    requires AllSound(segments)
    ensures PayloadBytes(segments) == Packed(AllBits(segments))
  {
  }

  lemma HeaderIs(j: Job)
    requires Sized(j)
    ensures j.donor.header.pic.begin <= j.donor.header.pic.end <= 8 * |j.donor.rbsp|
    ensures HeaderBytes(j) == Packed(HeaderBits(j.sps, j.pps, j.donor, j.want, Entries(j)))
  {
    hide Segments, WellShaped, PrefixBits, TailBits, Packed, Aligned, AllBits, Multiple, BitsFor;
  }

  lemma PlanOf(j: Job)
    requires Sized(j)
    ensures Segments(j)
      == Plan(GeometryOf(j.sps), j.pps.wpp, j.pps.initQp + j.donor.header.qpDelta, j.want.address, j.count)
  {
    hide Plan, WellShaped;
  }

  // ---- what a decoder finds ------------------------------------------------------------------------

  /** Escaping works on each substream by itself: every substream ends in a nonzero byte. */
  lemma {:induction false} EscapesApart(segments: seq<Segment>)
    requires AllSound(segments)
    ensures Escaped(0, PayloadBytes(segments)) == EscapedSegments(segments)
    ensures segments != [] ==>
      PayloadBytes(segments) != [] && PayloadBytes(segments)[|PayloadBytes(segments)| - 1] != 0
    decreases |segments|
  {
    hide *;
    NothingEscaped();
    if segments != [] {
      LastSegment(segments);
      PayloadAppend(segments);
      var init, last := segments[..|segments| - 1], SegmentBytes(segments[|segments| - 1]);
      EscapesApart(init);
      SegmentEnds(segments[|segments| - 1]);
      if init == [] {
        assert [] + last == last && [] + Escaped(0, last) == Escaped(0, last);
      } else {
        EscapeSplits(0, PayloadBytes(init), last);
      }
    }
  }

  lemma NothingEscaped()
    ensures Escaped(0, []) == [] && PayloadBytes([]) == [] && EscapedSegments([]) == []
  {
  }

  ghost function Total(entries: seq<nat>): nat {
    if entries == [] then 0 else Total(entries[..|entries| - 1]) + entries[|entries| - 1]
  }

  /** Substream i starts at the sum of the entry points before it. */
  lemma {:induction false} SegmentOffset(segments: seq<Segment>, i: nat)
    requires AllSound(segments) && i < |segments|
    ensures AllSound(segments[..i]) && Total(EntryLengths(segments)[..i]) == |EscapedSegments(segments[..i])|
    decreases i
  {
    hide SegmentBytes, Sound, Escaped;
    if i == 0 {
      assert segments[..0] == [] && EntryLengths(segments)[..0] == [];
    } else {
      var entries := EntryLengths(segments);
      SegmentOffset(segments, i - 1);
      TakeNext(entries, i - 1);
      assert segments[..i][..i - 1] == segments[..i - 1];
      assert entries[..i][..i - 1] == entries[..i - 1];
    }
  }

  lemma PrefixSound(segments: seq<Segment>, i: nat)
    requires AllSound(segments) && i < |segments|
    ensures AllSound(segments[..i]) && Sound(segments[i])
  {
    hide Sound;
  }

  /** Substream i in the escaped payload. */
  lemma {:induction false} SegmentCut(segments: seq<Segment>, i: nat)
    requires AllSound(segments) && i < |segments|
    ensures AllSound(segments[..i])
    ensures var from := |EscapedSegments(segments[..i])|;
      var to := from + |Escaped(0, SegmentBytes(segments[i]))|;
      && to <= |EscapedSegments(segments)| && (i == |segments| - 1 ==> to == |EscapedSegments(segments)|)
      && EscapedSegments(segments)[from..to] == Escaped(0, SegmentBytes(segments[i]))
    decreases |segments|
  {
    hide *;
    LastSegment(segments);
    PrefixSound(segments, i);
    var init := segments[..|segments| - 1];
    var a, b := EscapedSegments(init), Escaped(0, SegmentBytes(segments[|segments| - 1]));
    if i < |init| {
      SegmentCut(init, i);
      assert init[..i] == segments[..i];
      var from := |EscapedSegments(segments[..i])|;
      Pieces(a, b, from, from + |Escaped(0, SegmentBytes(segments[i]))|);
    } else {
      Pieces(a, b, 0, 0);
    }
  }

  lemma HeaderEnds(j: Job)
    requires Sized(j)
    ensures HeaderBytes(j) != [] && HeaderBytes(j)[|HeaderBytes(j)| - 1] != 0
  {
    hide *;
    RbspIs(j);
    LastByte(Unaligned(j));
  }

  /** Bytes that begin with an aligned bit string hold its bits. */
  lemma BytesHold(s: seq<Bit>, more: seq<Byte>)
    ensures Holds(Unpacked(Packed(Aligned(s)) + more), 0, s)
    ensures Unpacked(Packed(Aligned(s)) + more)[..|Aligned(s)|] == Aligned(s)
  {
    var d := Packed(Aligned(s));
    UnpackPacked(Aligned(s));
    UnpackedAppend(d, more);
    hide Packed, Aligned, Unpacked;
    var w := Unpacked(d + more);
    assert w[..|Aligned(s)|] == Aligned(s);
    assert w[0..|s|] == Aligned(s)[..|s|];
  }

  /** byte_alignment(): a one at p, and zeros up to bit end, the next byte boundary. */
  ghost predicate AlignedFrom(b: seq<Bit>, p: nat, end: nat) {
    p < end <= p + 8 && end % 8 == 0 && end <= |b| && b[p] == 1 && forall i :: p < i < end ==> b[i] == 0
  }

  /** A decoder reads these entry points in the tail at pos, and the alignment after them ends at bit end. */
  ghost predicate ReadsEntries(b: seq<Bit>, pos: nat, pps: Pps, entries: seq<nat>, end: nat) {
    var tail := ReadTail(b, pos, pps);
    tail.Done? && tail.value.v == entries && AlignedFrom(b, tail.value.pos, end)
  }

  /** Bytes [from, to) of the escaped unit, unescaped by themselves. */
  ghost predicate CutGives(unit: seq<Byte>, from: int, to: int, bytes: seq<Byte>) {
    0 <= from <= to <= |unit| && Unescaped(0, unit[from..to]) == bytes
  }

  /** Where entry points and header length cut the escaped unit for substream i. */
  ghost function Cut(j: Job, i: nat): (int, int)
    requires Sized(j) && i <= |Entries(j)|
  {
    var from := |Escaped(0, HeaderBytes(j))| + Total(Entries(j)[..i]);
    (from, if i < |Entries(j)| then from + Entries(j)[i] else |Escaped(0, Rbsp(j))|)
  }

  /** Escaping a header that ends in a nonzero byte, and the substreams after it. */
  lemma UnitSplits(h: seq<Byte>, segments: seq<Segment>)
    requires h != [] && h[|h| - 1] != 0 && AllSound(segments)
    ensures Escaped(0, h + PayloadBytes(segments)) == Escaped(0, h) + EscapedSegments(segments)
  {
    hide Escaped, SegmentBytes, PayloadBytes, EscapedSegments, Sound;
    EscapesApart(segments);
    EscapeSplits(0, h, PayloadBytes(segments));
  }

  /** Where substream i begins and ends among the escaped substreams, by the entry points. */
  lemma CutOf(segments: seq<Segment>, i: nat)
    requires AllSound(segments) && i < |segments|
    ensures var entries := EntryLengths(segments);
      var lo := Total(entries[..i]);
      var hi := if i < |entries| then lo + entries[i] else |EscapedSegments(segments)|;
      lo <= hi <= |EscapedSegments(segments)| && EscapedSegments(segments)[lo..hi] == Escaped(0, SegmentBytes(segments[i]))
  {
    hide Escaped, SegmentBytes, EscapedSegments, Sound, Total;
    SegmentOffset(segments, i);
    SegmentCut(segments, i);
  }

  /** Cutting after the header and at the entry points finds the substreams, each escaped by itself. */
  lemma CutFinds(h: seq<Byte>, segments: seq<Segment>, i: nat)
    requires h != [] && h[|h| - 1] != 0 && AllSound(segments) && i < |segments|
    ensures var unit := Escaped(0, h + PayloadBytes(segments));
      var entries := EntryLengths(segments);
      var from := |Escaped(0, h)| + Total(entries[..i]);
      CutGives(unit, from, if i < |entries| then from + entries[i] else |unit|, SegmentBytes(segments[i]))
  {
    hide *;
    PrefixSound(segments, i);
    UnitSplits(h, segments);
    CutOf(segments, i);
    var entries := EntryLengths(segments);
    var lo := Total(entries[..i]);
    var unit, a, b := Escaped(0, h + PayloadBytes(segments)), Escaped(0, h), EscapedSegments(segments);
    if i < |entries| {
      CutBehind(unit, a, b, lo, lo + entries[i], SegmentBytes(segments[i]));
    } else {
      CutBehind(unit, a, b, lo, |b|, SegmentBytes(segments[i]));
    }
  }

  /**
   * A decoder that reads the header's tail finds the entry points; cutting the escaped unit after the header
   * and at the entry points, and unescaping each cut by itself, gives the substreams.
   */
  lemma SubstreamsFound(j: Job, i: nat)
    requires Sized(j) && i < |Segments(j)| && Lengths32(Entries(j))
    ensures ReadsEntries(Unpacked(Rbsp(j)), |Prefix(j)|, j.pps, Entries(j), 8 * |HeaderBytes(j)|)
    ensures CutGives(Escaped(0, Rbsp(j)), Cut(j, i).0, Cut(j, i).1, SegmentBytes(Segments(j)[i]))
  {
    hide *;
    TailFound(j);
    HeaderEnds(j);
    EntriesAre(j);
    RbspIs(j);
    CutIs(j, i);
    CutFinds(HeaderBytes(j), Segments(j), i);
  }

  lemma RbspIs(j: Job)
    requires Sized(j)
    ensures Rbsp(j) == HeaderBytes(j) + PayloadBytes(Segments(j)) && HeaderBytes(j) == Packed(Aligned(Unaligned(j)))
    ensures Unaligned(j) == Prefix(j) + TailBits(j.pps, Entries(j)) + [1]
    ensures Prefix(j) == PrefixBits(j.sps, j.pps, j.donor, j.want)
  {
    hide Segments, PayloadBytes, Packed, Aligned, PrefixBits, Shaped;
  }

  lemma CutIs(j: Job, i: nat)
    requires Sized(j) && i <= |Entries(j)|
    ensures var from := |Escaped(0, HeaderBytes(j))| + Total(Entries(j)[..i]);
      Cut(j, i) == (from, if i < |Entries(j)| then from + Entries(j)[i] else |Escaped(0, Rbsp(j))|)
  {
    hide HeaderBytes, Rbsp, Entries, Escaped, Total;
  }

  lemma CutBehind(unit: seq<Byte>, a: seq<Byte>, b: seq<Byte>, lo: nat, hi: nat, bytes: seq<Byte>)
    requires unit == a + b && lo <= hi <= |b| && b[lo..hi] == Escaped(0, bytes)
    ensures |unit| == |a| + |b| && CutGives(unit, |a| + lo, |a| + hi, bytes)
  {
    hide Escaped, Unescaped;
    UnescapeInverts(0, bytes);
    assert unit[|a| + lo..|a| + hi] == b[lo..hi];
  }

  /** The tail after a prefix, aligned, packed and followed by more bytes. */
  lemma TailThere(prefix: seq<Bit>, pps: Pps, entries: seq<nat>, more: seq<Byte>)
    requires Lengths32(entries) && (!pps.wpp ==> entries == [])
    ensures var s := prefix + TailBits(pps, entries) + [1];
      var b := Unpacked(Packed(Aligned(s)) + more);
      ReadsEntries(b, |prefix|, pps, entries, 8 * |Packed(Aligned(s))|)
  {
    hide TailBits, ReadTail, Packed, Unpacked, Aligned, Holds, AlignedFrom;
    var tail := TailBits(pps, entries);
    var s := prefix + tail + [1];
    var b := Unpacked(Packed(Aligned(s)) + more);
    BytesHold(s, more);
    HoldsSplit(b, 0, prefix + tail, [1]);
    HoldsSplit(b, 0, prefix, tail);
    TailReads(b, |prefix|, pps, entries);
    AlignmentThere(s, more);
  }

  lemma AlignmentThere(s: seq<Bit>, more: seq<Byte>)
    requires s != [] && s[|s| - 1] == 1
    ensures AlignedFrom(Unpacked(Packed(Aligned(s)) + more), |s| - 1, 8 * |Packed(Aligned(s))|)
  {
    hide Packed, Unpacked, Aligned;
    BytesHold(s, more);
    var b := Unpacked(Packed(Aligned(s)) + more);
    forall i | 0 <= i < |Aligned(s)| ensures b[i] == Aligned(s)[i] {
      assert b[i] == b[..|Aligned(s)|][i];
    }
  }

  lemma TailFound(j: Job)
    requires Sized(j) && Lengths32(Entries(j))
    ensures ReadsEntries(Unpacked(Rbsp(j)), |Prefix(j)|, j.pps, Entries(j), 8 * |HeaderBytes(j)|)
  {
    NoEntries(j);
    hide *;
    RbspIs(j);
    TailThere(Prefix(j), j.pps, Entries(j), PayloadBytes(Segments(j)));
  }

  lemma NoEntries(j: Job)
    requires Sized(j)
    ensures !j.pps.wpp ==> Entries(j) == []
  {
  }

  // ---- the arithmetic decoder on a substream ---------------------------------------------------------

  lemma {:induction false} SameRenorm(d: Dec, v: seq<Bit>, w: seq<Bit>)
    requires d.range > 0 && forall i: nat :: BitAt(v, i) == BitAt(w, i)
    ensures RenormD(d, v) == RenormD(d, w)
    decreases 256 - d.range
  {
    hide BitAt;
    if d.range < 256 { SameRenorm(Dec(2 * d.range, 2 * d.offset + BitAt(v, d.pos), d.pos + 1), v, w); }
  }

  lemma {:induction false} SameDecoding(d: Dec, ctxs: seq<Ctx>, ops: seq<Op>, v: seq<Bit>, w: seq<Bit>)
    requires Usable(ops, ctxs) && forall i: nat :: BitAt(v, i) == BitAt(w, i)
    ensures DecodeAll(d, ctxs, ops, v) == DecodeAll(d, ctxs, ops, w)
    decreases |ops|
  {
    hide BitAt, RenormD;
    if d.range >= 256 {
      SameTerminate(d, v, w);
      if ops != [] {
        match ops[0] {
          case Code(i, _) =>
            SameBin(d, ctxs[i], v, w);
            hide DecodeBin, DecodeTerminate;
            var (bin, d') := DecodeBin(d, ctxs[i], v);
            SameDecoding(d', ctxs[i := NextCtx(ctxs[i], bin)], ops[1..], v, w);
          case Continue =>
            hide DecodeBin, DecodeTerminate;
            SameDecoding(DecodeTerminate(d, v).1, ctxs, ops[1..], v, w);
        }
      }
    }
  }

  lemma SameBin(d: Dec, c: Ctx, v: seq<Bit>, w: seq<Bit>)
    requires d.range >= 256 && forall i: nat :: BitAt(v, i) == BitAt(w, i)
    ensures DecodeBin(d, c, v) == DecodeBin(d, c, w)
  {
    hide BitAt, LpsRange;
    var lps := LpsRange(c.state, d.range);
    SameRenorm(Dec(lps, d.offset, d.pos), v, w);
    SameRenorm(Dec(d.range - lps, d.offset, d.pos), v, w);
    if d.offset >= d.range - lps { SameRenorm(Dec(lps, d.offset - (d.range - lps), d.pos), v, w); }
  }

  lemma SameTerminate(d: Dec, v: seq<Bit>, w: seq<Bit>)
    requires d.range >= 256 && forall i: nat :: BitAt(v, i) == BitAt(w, i)
    ensures DecodeTerminate(d, v) == DecodeTerminate(d, w)
  {
    hide BitAt;
    SameRenorm(Dec(d.range - 2, d.offset, d.pos), v, w);
  }

  /** A decoder started on a substream's bytes with its contexts reads its bins, and then the terminating 1. */
  lemma SegmentDecodes(s: Segment)
    requires Sound(s)
    ensures var v := Unpacked(SegmentBytes(s));
      Usable(s.ops, s.ctxs) && DecodeAll(DecStart(v), s.ctxs, s.ops, v).bins == Bins(s.ops)
  {
    var out := SegmentOut(s);
    var v := Unpacked(SegmentBytes(s));
    UnpackPacked(SegmentBits(s));
    assert v == Aligned(out);
    hide Aligned, SegmentBytes, SegmentOut, Unpacked, EncodeAll;
    PaddedBits(out);
    RoundTrip(s.ctxs, s.ops);
    SameStart(out, v);
    SameDecoding(DecStart(out), s.ctxs, s.ops, out, v);
    OutIs(s);
  }

  lemma OutIs(s: Segment)
    requires Sound(s)
    ensures Ready(ENC_START) && Usable(s.ops, s.ctxs) && SegmentOut(s) == EncodeAll(ENC_START, s.ctxs, s.ops).out
  {
    hide EncodeAll, Ready, Shifts, Low;
    StartReady();
  }

  lemma PaddedBits(s: seq<Bit>)
    ensures forall i: nat :: BitAt(s, i) == BitAt(Aligned(s), i)
  {
    hide Aligned;
  }

  lemma SameStart(v: seq<Bit>, w: seq<Bit>)
    requires forall i: nat :: BitAt(v, i) == BitAt(w, i)
    ensures DecStart(v) == DecStart(w)
  {
    hide BitAt;
  }

  // ---- the header of the unit ------------------------------------------------------------------------

  /**
   * The parser on the synthesized unit, with a donor parsed under the same parameter sets: it succeeds exactly
   * when neither weighted prediction nor an overlong default list 1 stands in the PPS and the header part fits
   * the parser's window; and then says what was asked for and what the donor says.
   */
  lemma UnitParses(j: Job, donorNal: seq<Byte>)
    requires Accepted(j) && j.pps.id < 64 && ParseSlice(donorNal, j.sps, j.pps) == Done(j.donor)
    requires j.donor.header1 != 0 && -0x4000_0000 < j.donor.header.qpDelta < 0x4000_0000
    ensures var nal := [j.donor.header0, j.donor.header1] + Escaped(HeaderZeros(j.donor), Rbsp(j));
      var parsed := ParseSlice(nal, j.sps, j.pps);
      && NoStartCode(nal)
      && (parsed.Done? <==> j.pps.refsL1 <= 16 && !j.pps.weightedPred && |Prefix(j)| <= 8 * HEADER_CAP)
      && (parsed.Done? ==> Reports(j.sps, j.donor, j.want, parsed.value))
  {
    hide *;
    AcceptedRoom(j);
    NotRefused(j, donorNal);
    HeaderEnds(j);
    RbspIs(j);
    ZerosIs(j.donor);
    var prefix, tail := Prefix(j), TailBits(j.pps, Entries(j));
    BytesHold(Unaligned(j), PayloadBytes(Segments(j)));
    HoldsSplit(Unpacked(Rbsp(j)), 0, prefix + tail, [1]);
    HoldsSplit(Unpacked(Rbsp(j)), 0, prefix, tail);
    NalRoundTrip(Rbsp(j), j.donor.header0, j.donor.header1, 0);
    SynthesizedHeader(j.sps, j.pps, j.donor, j.want, Rbsp(j),
                      [j.donor.header0, j.donor.header1] + Escaped(0, Rbsp(j)));
  }

  lemma ZerosIs(donor: Slice)
    ensures donor.header1 != 0 ==> HeaderZeros(donor) == 0
  {
  }

  /**
   * The collocated picture of the unit lies in its list 0 exactly when none was copied, or the donor's index lies in the
   * donor's list 0; the writer copies an index into list 1 all the same.
   */
  lemma CollocatedWithin(j: Job, donorNal: seq<Byte>)
    requires Accepted(j) && j.pps.id < 64 && ParseSlice(donorNal, j.sps, j.pps) == Done(j.donor)
    requires j.donor.header1 != 0 && -0x4000_0000 < j.donor.header.qpDelta < 0x4000_0000
    ensures var nal := [j.donor.header0, j.donor.header1] + Escaped(HeaderZeros(j.donor), Rbsp(j));
      var parsed, d := ParseSlice(nal, j.sps, j.pps), j.donor.header;
      parsed.Done? ==>
        var lists := parsed.value.header.lists;
        lists.collocated < lists.refsL0 <==> (d.pic.tmvp && d.lists.refsL0 > 1 ==> d.lists.collocated < d.lists.refsL0)
  {
    hide *;
    AcceptedShape(j);
    UnitParses(j, donorNal);
    var parsed := ParseSlice([j.donor.header0, j.donor.header1] + Escaped(HeaderZeros(j.donor), Rbsp(j)), j.sps, j.pps);
    if parsed.Done? { MirroredIndex(j.sps, j.donor, j.want, parsed.value); }
  }

  lemma MirroredIndex(sps: Sps, donor: Slice, want: Wanted, s: Slice)
    requires Reports(sps, donor, want, s)
    ensures var lists, d := s.header.lists, donor.header;
      lists.collocated < lists.refsL0 <==> (d.pic.tmvp && d.lists.refsL0 > 1 ==> d.lists.collocated < d.lists.refsL0)
  {
    hide Unpacked, DonorBlock;
  }

  /** What acceptance of a parsed donor means for the header. */
  lemma NotRefused(j: Job, donorNal: seq<Byte>)
    requires Accepted(j) && ParseSlice(donorNal, j.sps, j.pps) == Done(j.donor)
    ensures Donated(j.donor, j.sps, j.pps) && !IsIrap(NalType(j.donor.header0)) && NalType(j.donor.header0) <= 31
    ensures -0x4000_0000 < j.donor.header.qpDelta < 0x4000_0000 && j.pps.id < 64 ==>
      Writable(j.sps, j.pps, j.donor, j.want)
    ensures j.donor.header.pic.begin <= j.donor.header.pic.end <= 8 * |j.donor.rbsp|
  {
    hide ParseHeader, Unescaped, Unpacked, WellShaped, Donated;
    ParsedDonates(donorNal, j.sps, j.pps, j.donor);
    BitsSuffice(0, j.sps.sizeCtbs);
  }

  // ---- a decoder of the whole unit -------------------------------------------------------------------

  /** The escaped unit cut from a position on at the entry points. */
  function CutAll(unit: seq<Byte>, from: nat, entries: seq<nat>): seq<seq<Byte>>
    decreases |entries|
  {
    if from > |unit| then []
    else if entries == [] then [unit[from..]]
    else if from + entries[0] > |unit| then []
    else [unit[from..from + entries[0]]] + CutAll(unit, from + entries[0], entries[1..])
  }

  /** Each piece without emulation prevention, as bits. */
  function PieceBits(pieces: seq<seq<Byte>>): (r: seq<seq<Bit>>)
    ensures |r| == |pieces|
  {
    seq(|pieces|, i requires 0 <= i < |pieces| => Unpacked(Unescaped(0, pieces[i])))
  }

  /** Header, tail, entry points, substreams, slice data: all from the bytes and the parameter sets. */
  function DecodeNal(nal: seq<Byte>, sps: Sps, pps: Pps): Option<SliceData>
    requires sps.log2MinCb <= sps.log2Ctb && sps.widthCtbs > 0
  {
    if |nal| < 3 then None
    else
      var rbsp := Unescaped(0, nal[2..]);
      var b := Unpacked(rbsp);
      match ParseHeader(b, NalType(nal[0]), sps, pps)
      case Refused => None
      case Done(h) =>
        match ReadTail(b, h.pos, pps)
        case Refused => None
        case Done(t) =>
          var end := t.pos / 8 + 1;
          if end > |rbsp| then None
          else
            var pieces := CutAll(nal[2..], |Escaped(0, rbsp[..end])|, t.v);
            ReadSlice(GeometryOf(sps), pps.wpp, pps.initQp + h.v.qpDelta, h.v.head.address, sps.sizeCtbs, PieceBits(pieces))
  }

  ghost function JoinAll(pieces: seq<seq<Byte>>): seq<Byte> {
    if pieces == [] then [] else pieces[0] + JoinAll(pieces[1..])
  }

  lemma {:induction false} JoinAppend(pieces: seq<seq<Byte>>, last: seq<Byte>)
    ensures JoinAll(pieces + [last]) == JoinAll(pieces) + last
    decreases |pieces|
  {
    if pieces == [] {
      assert [last][1..] == [] && last + [] == last && [] + last == last;
    } else {
      JoinAppend(pieces[1..], last);
      assert (pieces + [last])[1..] == pieces[1..] + [last];
      assert pieces[0] + (JoinAll(pieces[1..]) + last) == pieces[0] + JoinAll(pieces[1..]) + last;
    }
  }

  ghost function EscapedPieces(segments: seq<Segment>): (r: seq<seq<Byte>>)
    requires AllSound(segments)
    ensures |r| == |segments|
  {
    seq(|segments|, i requires 0 <= i < |segments| => Escaped(0, SegmentBytes(segments[i])))
  }

  lemma {:induction false} PiecesJoin(segments: seq<Segment>)
    requires AllSound(segments)
    ensures JoinAll(EscapedPieces(segments)) == EscapedSegments(segments)
    decreases |segments|
  {
    hide SegmentBytes, Escaped, Sound, EscapedSegments, EscapedPieces, JoinAll;
    if segments == [] {
      NoPieces();
    } else {
      var init, last := segments[..|segments| - 1], segments[|segments| - 1];
      LastSegment(segments);
      PiecesJoin(init);
      JoinAppend(EscapedPieces(init), Escaped(0, SegmentBytes(last)));
      LastPiece(segments);
    }
  }

  lemma NoPieces()
    ensures JoinAll(EscapedPieces([])) == EscapedSegments([])
  {
  }

  lemma LastPiece(segments: seq<Segment>)
    requires AllSound(segments) && segments != []
    ensures EscapedPieces(segments)
      == EscapedPieces(segments[..|segments| - 1]) + [Escaped(0, SegmentBytes(segments[|segments| - 1]))]
  {
    hide SegmentBytes, Escaped, Sound;
  }

  /** Cutting at the lengths of the pieces gives the pieces. */
  lemma {:induction false} CutAllFinds(a: seq<Byte>, pieces: seq<seq<Byte>>, unit: seq<Byte>, entries: seq<nat>)
    requires unit == a + JoinAll(pieces) && |pieces| == |entries| + 1
    requires forall i :: 0 <= i < |entries| ==> entries[i] == |pieces[i]|
    ensures CutAll(unit, |a|, entries) == pieces
    decreases |entries|
  {
    var p := pieces[0];
    assert unit == a + p + JoinAll(pieces[1..]);
    if entries == [] {
      assert pieces[1..] == [] && unit == a + p;
      assert unit[|a|..] == p && pieces == [p];
    } else {
      assert unit[|a|..|a| + entries[0]] == p;
      assert |a + p| == |a| + entries[0];
      CutAllFinds(a + p, pieces[1..], unit, entries[1..]);
      assert pieces == [p] + pieces[1..];
    }
  }

  /** The bits a decoder takes from the pieces carry the planned bins. */
  lemma PiecesCarry(segments: seq<Segment>)
    requires AllSound(segments)
    ensures Carried(segments, PieceBits(EscapedPieces(segments)))
  {
    var bits := PieceBits(EscapedPieces(segments));
    hide Unescaped, Escaped, SegmentBytes, Unpacked, DecStart, Sound;
    forall i | 0 <= i < |bits| ensures Tracks(Engine(DecStart(bits[i]), segments[i].ctxs), segments[i].ops, bits[i]) {
      UnescapeInverts(0, SegmentBytes(segments[i]));
      SegmentDecodes(segments[i]);
      Tracked(segments[i], bits[i]);
    }
  }

  lemma Tracked(s: Segment, v: seq<Bit>)
    requires Usable(s.ops, s.ctxs) && DecodeAll(DecStart(v), s.ctxs, s.ops, v).bins == Bins(s.ops)
    ensures Tracks(Engine(DecStart(v), s.ctxs), s.ops, v)
  {
    hide DecStart, DecodeAll;
  }

  lemma PiecesOf(j: Job)
    requires Sized(j)
    ensures CutAll(Escaped(0, Rbsp(j)), |Escaped(0, HeaderBytes(j))|, Entries(j)) == EscapedPieces(Segments(j))
  {
    hide *;
    HeaderEnds(j);
    RbspIs(j);
    EntriesAre(j);
    var h, segments := HeaderBytes(j), Segments(j);
    UnitSplits(h, segments);
    PiecesJoin(segments);
    EntriesMeasure(segments);
    CutAllFinds(Escaped(0, h), EscapedPieces(segments), Escaped(0, h + PayloadBytes(segments)), Entries(j));
  }

  lemma EntriesMeasure(segments: seq<Segment>)
    requires AllSound(segments) && segments != []
    ensures var e := EntryLengths(segments); forall i :: 0 <= i < |e| ==> e[i] == |EscapedPieces(segments)[i]|
  {
    hide SegmentBytes, Escaped, Sound;
  }

  /** The slice header, its end, and the header's bytes, as the decoder sees them. */
  lemma HeaderSeen(j: Job, donorNal: seq<Byte>)
    requires Accepted(j) && j.pps.id < 64 && ParseSlice(donorNal, j.sps, j.pps) == Done(j.donor)
    requires -0x4000_0000 < j.donor.header.qpDelta < 0x4000_0000 && j.pps.refsL1 <= 16 && !j.pps.weightedPred
    requires Lengths32(Entries(j))
    ensures var b := Unpacked(Rbsp(j));
      var h := ParseHeader(b, NalType(j.donor.header0), j.sps, j.pps);
      && h.Done? && h.value.pos == |Prefix(j)| && h.value.v.qpDelta == j.donor.header.qpDelta
      && h.value.v.head.address == if j.want.first then 0 else j.want.address
    ensures var t := ReadTail(Unpacked(Rbsp(j)), |Prefix(j)|, j.pps);
      && t.Done? && t.value.v == Entries(j) && t.value.pos / 8 + 1 == |HeaderBytes(j)| <= |Rbsp(j)|
      && Rbsp(j)[..|HeaderBytes(j)|] == HeaderBytes(j)
  {
    hide *;
    AcceptedRoom(j);
    NotRefused(j, donorNal);
    RbspIs(j);
    var prefix, tail := Prefix(j), TailBits(j.pps, Entries(j));
    BytesHold(Unaligned(j), PayloadBytes(Segments(j)));
    HoldsSplit(Unpacked(Rbsp(j)), 0, prefix + tail, [1]);
    HoldsSplit(Unpacked(Rbsp(j)), 0, prefix, tail);
    PrefixReads(Unpacked(Rbsp(j)), NalType(j.donor.header0), j.sps, j.pps, j.donor, j.want);
    MirroredSays(j.sps, j.donor, j.want, BlockStart(j.sps, j.pps, j.donor, j.want));
    TailFound(j);
    TailSays(Unpacked(Rbsp(j)), |prefix|, j.pps, Entries(j), |HeaderBytes(j)|);
    assert (HeaderBytes(j) + PayloadBytes(Segments(j)))[..|HeaderBytes(j)|] == HeaderBytes(j);
  }

  lemma MirroredSays(sps: Sps, donor: Slice, want: Wanted, begin: nat)
    requires donor.header.pic.begin <= donor.header.pic.end
    ensures var m := Mirrored(sps, donor, want, begin);
      m.qpDelta == donor.header.qpDelta && m.head.address == if want.first then 0 else want.address
  {
  }

  lemma TailSays(b: seq<Bit>, pos: nat, pps: Pps, entries: seq<nat>, bytes: nat)
    requires ReadsEntries(b, pos, pps, entries, 8 * bytes)
    ensures var t := ReadTail(b, pos, pps);
      t.Done? && t.value.v == entries && t.value.pos / 8 + 1 == bytes
  {
    hide ReadTail;
  }

  /**
   * From call to picture: for every accepted call with a parsed donor, outside the shapes whose header does
   * not parse, a decoder that has only the unit's bytes and the parameter sets decodes exactly the CTUs
   * asked for, every block of them in the picture in a skipped unit.
   */
  lemma ConcealmentDecodes(j: Job, donorNal: seq<Byte>)
    requires Accepted(j) && j.pps.id < 64 && ParseSlice(donorNal, j.sps, j.pps) == Done(j.donor)
    requires j.donor.header1 != 0 && -0x4000_0000 < j.donor.header.qpDelta < 0x4000_0000
    requires j.pps.refsL1 <= 16 && !j.pps.weightedPred && Lengths32(Entries(j)) && (j.want.first ==> j.want.address == 0)
    ensures var nal := [j.donor.header0, j.donor.header1] + Escaped(HeaderZeros(j.donor), Rbsp(j));
      var s := DecodeNal(nal, j.sps, j.pps);
      && s.Some? && s.value.end == j.want.address + j.count
      && Holding(GeometryOf(j.sps), s.value.cus, j.want.address, j.want.address + j.count)
      && forall q :: q in s.value.cus ==> s.value.cus[q].skip
  {
    hide *;
    AcceptedRoom(j);
    ZerosIs(j.donor);
    HeaderSeen(j, donorNal);
    HeaderEnds(j);
    RbspIs(j);
    UnescapeInverts(0, Rbsp(j));
    EscapedLength(Rbsp(j));
    PiecesOf(j);
    PlanOf(j);
    PiecesCarry(Segments(j));
    var g, qp := GeometryOf(j.sps), j.pps.initQp + j.donor.header.qpDelta;
    SliceReads(g, j.pps.wpp, qp, j.want.address, j.count, j.sps.sizeCtbs, PieceBits(EscapedPieces(Segments(j))));
    DecodesNal(j);
  }

  lemma AcceptedRoom(j: Job)
    requires Accepted(j)
    ensures Sized(j) && WellShaped(GeometryOf(j.sps)) && j.want.address + j.count <= j.sps.sizeCtbs
    ensures j.sps.log2MinCb <= j.sps.log2Ctb && j.count > 0 && j.sps.widthCtbs > 0
  {
    hide WellShaped, Multiple, BitsFor;
  }

  /** The decoder's steps on the unit. */
  lemma DecodesNal(j: Job)
    requires Sized(j) && Unescaped(0, Escaped(0, Rbsp(j))) == Rbsp(j) && |Escaped(0, Rbsp(j))| >= 1
    requires var b := Unpacked(Rbsp(j));
      var h := ParseHeader(b, NalType(j.donor.header0), j.sps, j.pps);
      && h.Done? && h.value.pos == |Prefix(j)| && h.value.v.qpDelta == j.donor.header.qpDelta
      && h.value.v.head.address == j.want.address
    requires var t := ReadTail(Unpacked(Rbsp(j)), |Prefix(j)|, j.pps);
      && t.Done? && t.value.v == Entries(j) && t.value.pos / 8 + 1 == |HeaderBytes(j)| <= |Rbsp(j)|
      && Rbsp(j)[..|HeaderBytes(j)|] == HeaderBytes(j)
    requires CutAll(Escaped(0, Rbsp(j)), |Escaped(0, HeaderBytes(j))|, Entries(j)) == EscapedPieces(Segments(j))
    ensures DecodeNal([j.donor.header0, j.donor.header1] + Escaped(0, Rbsp(j)), j.sps, j.pps)
      == ReadSlice(GeometryOf(j.sps), j.pps.wpp, j.pps.initQp + j.donor.header.qpDelta, j.want.address, j.sps.sizeCtbs,
                   PieceBits(EscapedPieces(Segments(j))))
  {
    hide Unescaped, Escaped, Rbsp, ParseHeader, Prefix, ReadTail, Entries, HeaderBytes, CutAll, EscapedPieces, Segments;
    hide ReadSlice, Unpacked, PieceBits;
    var nal := [j.donor.header0, j.donor.header1] + Escaped(0, Rbsp(j));
    assert nal[2..] == Escaped(0, Rbsp(j));
  }
}
