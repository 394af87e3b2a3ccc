/** Jobs at the edges of the concealment writer, with a donor given byte by byte. */
module ConcealCases {
  import opened Bytes
  import opened Bits
  import Cabac
  import CabacLaws
  import opened NalUnit
  import opened SliceSyntax
  import opened SliceParser
  import opened SliceWriter
  import opened SliceHeader
  import opened CodingTree
  import opened SlicePlan
  import opened SlicePayload
  import opened ConcealSlice

  /** A picture of one 64 by 64 CTU with one short-term set of one reference. */
  const SPS := Sps(64, 64, 4, 3, 6, false, true, false, 0, 1, [1], [1], [], 1, 1, 0)

  function PpsWith(weighted: bool): Pps {
    Pps(0, false, false, 0, false, 1, 1, 26, false, weighted, false, false, false, false, false, false, false, false, false)
  }

  /**
   * A B slice header: first slice, order count 0, the sequence's short-term set, motion vector prediction, lists of two
   * and three pictures, collocated picture 2 of list 1, QP delta 0; then the stop bit.
   */
  const BITS: seq<Bit> := [1, 1, 1, 0, 0, 0, 0, 1] + [1, 1, 0, 1, 0, 0, 1, 1] + [0, 0, 0, 1, 1, 0, 0, 1] + [0, 1, 1, 1, 0, 0, 0, 0]

  const RBSP: seq<Byte> := [0xE1, 0xD3, 0x19, 0x70]

  const DONOR_NAL: seq<Byte> := [2, 1] + RBSP

  const DONOR := Slice(2, 1, 0, RBSP, Header(Head(true, 0, KIND_B), Picture(0, true, 7, 8, 1, true), Lists(2, 2), 0))

  function JobWith(weighted: bool): Job {
    Job(SPS, PpsWith(weighted), DONOR, Wanted(0, true, None), 1)
  }

  // ---- the donor parses -------------------------------------------------------------------------------

  lemma DonorBits()
    ensures Unpacked(RBSP) == BITS
  {
    forall p | 0 <= p < 32 ensures Unpacked(RBSP)[p] == BITS[p] {
      var s := BITS[8 * (p / 8)..8 * (p / 8) + 8];
      assert s[p % 8] == BITS[p];
      OctetIs(p / 8);
      ByteBits(s, p % 8);
      hide ByteOf, ShiftRight;
    }
  }

  lemma OctetIs(n: nat)
    requires n < 4
    ensures ByteOf(BITS[8 * n..8 * n + 8]) == RBSP[n]
  {
    match n {
      case 0 => assert BITS[0..8] == [1, 1, 1, 0, 0, 0, 0, 1];
      case 1 => assert BITS[8..16] == [1, 1, 0, 1, 0, 0, 1, 1];
      case 2 => assert BITS[16..24] == [0, 0, 0, 1, 1, 0, 0, 1];
      case 3 => assert BITS[24..32] == [0, 1, 1, 1, 0, 0, 0, 0];
    }
  }

  lemma UeZero(b: seq<Bit>, pos: nat)
    requires pos < |b| && b[pos] == 1
    ensures TakeUe(b, pos) == Done(Step(0, pos + 1))
  {
  }

  lemma UeShort(b: seq<Bit>, pos: nat)
    requires pos + 3 <= |b| && b[pos] == 0 && b[pos + 1] == 1
    ensures TakeUe(b, pos) == Done(Step(1 + b[pos + 2] as int, pos + 3))
  {
    ValueAppend([], b[pos + 2]);
    assert b[pos + 2..pos + 3] == [] + [b[pos + 2]];
    assert Zeros(b, pos + 1) == 0 && Pow2(1) == 2;
  }

  lemma UeLong(b: seq<Bit>, pos: nat)
    requires pos + 5 <= |b| && b[pos] == 0 && b[pos + 1] == 0 && b[pos + 2] == 1
    ensures TakeUe(b, pos) == Done(Step(3 + 2 * b[pos + 3] as int + b[pos + 4] as int, pos + 5))
  {
    ValueAppend([], b[pos + 3]);
    ValueAppend([] + [b[pos + 3]], b[pos + 4]);
    assert b[pos + 3..pos + 5] == [] + [b[pos + 3]] + [b[pos + 4]];
    assert Zeros(b, pos + 2) == 0 && Zeros(b, pos + 1) == 1 && Pow2(2) == 2 * Pow2(1) == 4;
  }

  lemma TakesBit(b: seq<Bit>, pos: nat)
    requires pos < |b|
    ensures TakeU(b, pos, 1) == Done(Step(b[pos] as int, pos + 1))
  {
    OneBit(b, pos);
  }

  lemma DonorHead(weighted: bool)
    ensures ParseHead(BITS, 1, SPS, PpsWith(weighted)) == Done(Step(Head(true, 0, KIND_B), 3))
  {
    hide TakeU, TakeUe;
    TakesBit(BITS, 0);
    UeZero(BITS, 1);
    UeZero(BITS, 2);
  }

  lemma DonorPicture()
    ensures ParsePicture(BITS, 3, 1, SPS) == Done(Step(Picture(0, true, 7, 8, 1, true), 9))
    ensures References(BITS, 7, SPS) == Done(Step(1, 8))
  {
    hide TakeU, TakeUe;
    PocZero();
    TakesBit(BITS, 7);
    TakesBit(BITS, 8);
  }

  lemma PocZero()
    ensures TakeU(BITS, 3, 4) == Done(Step(0, 7))
  {
    ValueAppend([], 0);
    ValueAppend([0], 0);
    ValueAppend([0, 0], 0);
    ValueAppend([0, 0, 0], 0);
    assert [] + [0] == [0] && [0] + [0] == [0, 0] && [0, 0] + [0] == [0, 0, 0] && [0, 0, 0] + [0] == BITS[3..7];
  }

  lemma DonorLists(weighted: bool)
    ensures ParseLists(BITS, 9, KIND_B, Picture(0, true, 7, 8, 1, true), PpsWith(weighted)) == Done(Step(Lists(2, 2), 26))
  {
    hide TakeU, TakeUe, ParseLengths, ParseCollocated;
    DonorLengths(weighted);
    DonorCollocated(weighted);
    UeLong(BITS, 21);
  }

  lemma DonorLengths(weighted: bool)
    ensures ParseLengths(BITS, 9, KIND_B, PpsWith(weighted)) == Done(Step(Lengths(2, 3), 16))
  {
    hide TakeU, TakeUe;
    TakesBit(BITS, 9);
    UeShort(BITS, 10);
    UeShort(BITS, 13);
  }

  lemma DonorCollocated(weighted: bool)
    ensures ParseCollocated(BITS, 16, KIND_B, true, Lengths(2, 3), PpsWith(weighted)) == Done(Step(2, 21))
  {
    hide TakeU, TakeUe;
    TakesBit(BITS, 16);
    TakesBit(BITS, 17);
    UeShort(BITS, 18);
  }

  lemma DonorParses(weighted: bool)
    ensures ParseSlice(DONOR_NAL, SPS, PpsWith(weighted)) == Done(DONOR)
  {
    hide ParseHeader, Unpacked, Unescaped, Pow2;
    assert DONOR_NAL[2..] == RBSP && Capped(RBSP, HEADER_CAP) == RBSP && NalType(2) == 1;
    DonorUnescaped();
    DonorBits();
    DonorHeader(weighted);
  }

  lemma DonorHeader(weighted: bool)
    ensures ParseHeader(BITS, 1, SPS, PpsWith(weighted)) == Done(Step(DONOR.header, 27))
  {
    hide ParseHead, ParsePicture, ParseLists, TakeSe;
    DonorHead(weighted);
    DonorPicture();
    DonorLists(weighted);
    DonorQp();
  }

  lemma DonorQp()
    ensures TakeSe(BITS, 26) == Done(Step(0, 27))
  {
    UeZero(BITS, 26);
  }

  lemma DonorUnescaped()
    ensures Unescaped(0, RBSP) == RBSP
  {
    assert RBSP[1..] == [0xD3, 0x19, 0x70] && RBSP[1..][1..] == [0x19, 0x70] && RBSP[1..][1..][1..] == [0x70];
    assert RBSP[1..][1..][1..][1..] == [];
  }

  // ---- the writer takes it ------------------------------------------------------------------------------

  lemma JobShaped()
    ensures Shaped(SPS)
  {
    assert ShiftRight(64, 3) == 8 by { assert ShiftRight(64, 3) == ShiftRight(32, 2) == ShiftRight(16, 1) == ShiftRight(8, 0); }
    assert Pow2(3) == 2 * Pow2(2) == 4 * Pow2(1) == 8 && Pow2(0) == 1;
    assert BitsFor(1) == 0;
  }

  lemma JobParts(weighted: bool)
    ensures var j := JobWith(weighted);
            && j.sps == SPS && j.pps == PpsWith(weighted) && j.donor == DONOR && j.pps.id == 0 && j.pps.refsL1 == 1
            && j.pps.weightedPred == weighted && j.donor.header1 == 1 && j.donor.header.qpDelta == 0
            && (forall s :: Reports(j.sps, DONOR, j.want, s) ==> s.header.lists == Lists(2, 2))
  {
    hide DonorBlock;
  }

  lemma JobAccepted(weighted: bool)
    ensures Accepted(JobWith(weighted))
  {
    JobShaped();
    hide Shaped;
  }

  // ---- what comes of it -----------------------------------------------------------------------------------

  /** A B donor under weighted P prediction: the writer takes it, and the parser refuses the unit it makes. */
  lemma WeightedUnitRefused()
    ensures var j := JobWith(true);
            var nal := [j.donor.header0, j.donor.header1] + Escaped(HeaderZeros(j.donor), Rbsp(j));
            Accepted(j) && ParseSlice(DONOR_NAL, j.sps, j.pps) == Done(j.donor) && ParseSlice(nal, j.sps, j.pps).Refused?
  {
    hide *;
    JobParts(true);
    JobAccepted(true);
    DonorParses(true);
    UnitParses(JobWith(true), DONOR_NAL);
  }

  lemma PrefixShort()
    ensures |Prefix(JobWith(false))| <= 8 * HEADER_CAP
  {
    assert |ExpGolomb(0)| == 1 && |ExpGolomb(1)| == 3 && |ExpGolomb(2)| == 3 && |ExpGolomb(4)| == 5;
    hide ExpGolomb, Unpacked;
    var d := DONOR.header;
    assert |HeadBits(SPS, PpsWith(false), 0, Wanted(0, true, None))| == 5;
    assert ListBits(PpsWith(false), d) == [1] + ExpGolomb(1) + [] + CollocatedBits(PpsWith(false), d) + ExpGolomb(4);
    assert CollocatedBits(PpsWith(false), d) == ExpGolomb(2);
  }

  /** Its collocated picture is the third of list 1; the unit, with a list 0 of two, names a third picture of list 0. */
  lemma CollocatedOutside()
    ensures var j := JobWith(false);
            var nal := [j.donor.header0, j.donor.header1] + Escaped(HeaderZeros(j.donor), Rbsp(j));
            var parsed := ParseSlice(nal, j.sps, j.pps);
            && Accepted(j) && ParseSlice(DONOR_NAL, j.sps, j.pps) == Done(j.donor)
            && parsed.Done? && parsed.value.header.lists == Lists(2, 2)
  {
    hide *;
    JobParts(false);
    JobAccepted(false);
    DonorParses(false);
    PrefixShort();
    UnitParses(JobWith(false), DONOR_NAL);
  }

  // ---- one CTU below the picture ---------------------------------------------------------------------------

  lemma EmptyFlushStart()
    ensures Cabac.FlushStart(Cabac.ENC_START) == Cabac.ENC_START.(low := 0, range := 256, outstanding := 7)
  {
    var e0 := Cabac.ENC_START.(low := 508, range := 2);
    var e1, e2, e3 := e0.(range := 4, low := 504, outstanding := 1), e0.(range := 8, low := 496, outstanding := 2), e0.(range := 16, low := 480, outstanding := 3);
    var e4, e5, e6 := e0.(range := 32, low := 448, outstanding := 4), e0.(range := 64, low := 384, outstanding := 5), e0.(range := 128, low := 256, outstanding := 6);
    var e7 := e0.(range := 256, low := 0, outstanding := 7);
    assert Cabac.Shifted(e0) == e1 && Cabac.Shifted(e1) == e2 && Cabac.Shifted(e2) == e3 && Cabac.Shifted(e3) == e4;
    assert Cabac.Shifted(e4) == e5 && Cabac.Shifted(e5) == e6 && Cabac.Shifted(e6) == e7;
    hide Cabac.Renormed, Cabac.Shifted;
    CabacLaws.Renorming(e6);
    CabacLaws.Renorming(e5);
    CabacLaws.Renorming(e4);
    CabacLaws.Renorming(e3);
    CabacLaws.Renorming(e2);
    CabacLaws.Renorming(e1);
    CabacLaws.Renorming(e0);
    CabacLaws.Renorming(e7);
  }

  /** The flush of a coder that has coded nothing: seven outstanding bits, and the last three. */
  lemma EmptyFlush()
    ensures Cabac.AfterFlush(Cabac.ENC_START).out == [1, 1, 1, 1, 1, 1, 1, 0, 1]
  {
    EmptyFlushStart();
    SevenOnes();
    hide Cabac.FlushStart, Cabac.Repeated;
  }

  lemma SevenOnes()
    ensures Cabac.Repeated(1, 7) == [1, 1, 1, 1, 1, 1, 1]
  {
    assert Cabac.Repeated(1, 3) == [1, 1, 1];
    assert Cabac.Repeated(1, 5) == [1, 1, 1, 1, 1];
  }

  lemma PackedStep(a: seq<Bit>, b: seq<Bit>)
    requires |a| == 8 && |b| % 8 == 0
    ensures Packed(a + b) == [ByteOf(a)] + Packed(b) && Packed([]) == []
  {
    assert (a + b)[..8] == a && (a + b)[8..] == b;
    hide ByteOf;
  }

  /** The zeros of an alignment. */
  lemma AlignedIs(s: seq<Bit>, zeros: seq<Bit>)
    requires |s + zeros| % 8 == 0 && |zeros| < 8 && forall i :: 0 <= i < |zeros| ==> zeros[i] == 0
    ensures Aligned(s) == s + zeros
  {
    hide Aligned;
    assert |Aligned(s)| == |s| + |zeros|;
    assert Aligned(s)[..|s|] == s;
  }

  lemma EmptyOut(s: Segment)
    requires Sound(s) && s.ops == []
    ensures SegmentOut(s) == [1, 1, 1, 1, 1, 1, 1, 0, 1] && SegmentBits(s) == Aligned(SegmentOut(s))
  {
    hide Cabac.AfterFlush, Cabac.Ready, Cabac.Usable, Aligned;
    EmptyFlush();
    OutIs(s);
  }

  lemma EmptyBits(s: Segment)
    requires Sound(s) && s.ops == []
    ensures SegmentBits(s) == [1, 1, 1, 1, 1, 1, 1, 0] + [1, 0, 0, 0, 0, 0, 0, 0]
  {
    hide *;
    EmptyOut(s);
    AlignedIs(SegmentOut(s), [0, 0, 0, 0, 0, 0, 0]);
  }

  lemma EmptyPacked()
    ensures Packed([1, 1, 1, 1, 1, 1, 1, 0] + [1, 0, 0, 0, 0, 0, 0, 0]) == [0xFE, 0x80]
  {
    hide Packed;
    var rest: seq<Bit> := [1, 0, 0, 0, 0, 0, 0, 0];
    PackedStep([1, 1, 1, 1, 1, 1, 1, 0], rest);
    PackedStep(rest, []);
    assert rest + [] == rest;
  }

  lemma EmptyPayload(s: Segment)
    requires Sound(s) && s.ops == []
    ensures AllSound([s]) && PayloadBytes([s]) == [0xFE, 0x80]
  {
    hide *;
    EmptyBits(s);
    EmptyPacked();
    OneSegmentBits(s);
    PayloadIs([s]);
  }

  lemma OneSegmentBits(s: Segment)
    requires Sound(s)
    ensures AllSound([s]) && AllBits([s]) == SegmentBits(s)
  {
    hide SegmentBits, Sound;
    assert [s][..0] == [] && AllBits([]) == [];
  }

  /** The plan of a CTU below the picture. */
  lemma PlanBelow(g: Geometry, wpp: bool, qp: int, first: nat)
    requires g.ctbs > 0 && RootY(g, first) >= g.height
    ensures Plan(g, wpp, qp, first, 1) == [Segment(FreshContexts(qp), [])] && Sound(Segment(FreshContexts(qp), []))
  {
    hide FreshContexts, RootX, RootY;
    var w := WalkTo(g, wpp, qp, first, 0);
    assert EmitCtu(g, first, first, w.grid).ops == [] && w.ops + [] == [];
    assert w.finished + [Segment(w.start, [])] == [Segment(w.start, [])];
  }

  /** A CTU below the picture is coded with no bin at all: its slice data is the flush. */
  lemma NothingCoded(j: Job)
    requires Sized(j) && Shaped(j.sps) && BelowPicture(j)
    ensures PayloadBytes(Segments(j)) == [0xFE, 0x80]
  {
    hide *;
    SizedShape(j);
    PlanOf(j);
    RootBelow(j);
    var g, qp := GeometryOf(j.sps), j.pps.initQp + j.donor.header.qpDelta;
    PlanBelow(g, j.pps.wpp, qp, j.want.address);
    EmptyPayload(Segment(FreshContexts(qp), []));
  }

  lemma {:induction false} PowSum(m: nat, n: nat)
    ensures Pow2(m + n) == Pow2(m) * Pow2(n)
  {
    if m != 0 {
      PowSum(m - 1, n);
      assert Pow2(m + n) == 2 * Pow2(m - 1 + n);
    }
  }

  /** Its root lies below the last row of blocks. */
  lemma RootBelow(j: Job)
    requires Sized(j) && Shaped(j.sps) && BelowPicture(j)
    ensures j.count == 1 && GeometryOf(j.sps).ctbs > 0 && RootY(GeometryOf(j.sps), j.want.address) >= GeometryOf(j.sps).height
  {
    hide *;
    BelowParts(j);
    var m, levels, q := j.sps.log2MinCb, j.sps.log2Ctb - j.sps.log2MinCb, j.want.address / j.sps.widthCtbs;
    PowSum(levels, m);
    PowPositive(m);
    NoLess(q * Pow2(levels), GeometryOf(j.sps).height, Pow2(m), q, Pow2(levels));
  }

  lemma BelowParts(j: Job)
    requires Sized(j) && Shaped(j.sps) && BelowPicture(j)
    ensures var g, q := GeometryOf(j.sps), j.want.address / j.sps.widthCtbs;
            && j.count == 1 && j.sps.log2MinCb <= j.sps.log2Ctb && j.sps.widthCtbs > 0 && g.ctbs > 0
            && RootY(g, j.want.address) == q * Pow2(j.sps.log2Ctb - j.sps.log2MinCb)
            && q * Pow2(j.sps.log2Ctb) >= g.height * Pow2(j.sps.log2MinCb)
  {
    hide Pow2, ShiftRight, BitsFor, WellShaped;
    Remainder(j.want.address / j.sps.widthCtbs * Pow2(j.sps.log2Ctb));
  }

  lemma Remainder(n: nat)
    ensures n % 0x1_0000_0000 <= n
  {
  }

  lemma NoLess(a: nat, h: nat, c: nat, q: nat, p: nat)
    requires c > 0 && a == q * p && q * (p * c) >= h * c
    ensures a >= h
  {
    assert q * (p * c) == a * c;
    Factor(a - h, c);
  }

  lemma Factor(d: int, c: nat)
    requires c > 0
    ensures d < 0 ==> d * c < 0
    ensures d * c < 0 ==> d < 0
  {
  }

  // ---- the unit at the last 32-bit address -------------------------------------------------------------------

  /** One CTU at an address, as the first slice. */
  function JobAt(address: nat): Job {
    JobWith(false).(want := Wanted(address, true, None))
  }

  /** One CTU asked for at the last 32-bit address: the sum wraps to 0. */
  function WrappedJob(): Job {
    JobAt(0xFFFF_FFFF)
  }

  lemma WrappedShape()
    ensures var j := WrappedJob();
            Shaped(j.sps) && Sized(j) && !Unwrapped(j) && BelowPicture(j) && !Refuses(j.sps, j.pps, j.donor, j.want, j.count)
  {
    JobShaped();
    assert Pow2(6) == 2 * Pow2(5) == 4 * Pow2(4) == 8 * Pow2(3) == 64 by { assert Pow2(3) == 8; }
    assert 0xFFFF_FFFF / 1 * 64 % 0x1_0000_0000 == 0xFFFF_FFC0;
    hide Shaped;
  }

  lemma CodeWords()
    ensures ExpGolomb(0) == [1] && ExpGolomb(1) == [0, 1, 0] && ExpGolomb(2) == [0, 1, 1] && ExpGolomb(4) == [0, 0, 1, 0, 1]
    ensures Binary(0, 4) == [0, 0, 0, 0]
  {
    assert Log2(1) == 0 && Log2(2) == 1 && Log2(3) == 1 && Log2(5) == 2;
    assert Binary(0, 0) == [] && Binary(0, 1) == [0] && Binary(0, 2) == [0, 0];
    assert Binary(1, 1) == [1] && Binary(1, 2) == [0, 1] && Binary(2, 2) == [1, 0] && Binary(3, 2) == [1, 1];
    assert Binary(2, 2) == [1, 0] && Binary(5, 3) == [1, 0, 1];
  }

  lemma FirstPrefix(address: nat)
    ensures Prefix(JobAt(address)) == [1] + [1] + [0, 1, 0] + ([0, 0, 0, 0] + [1] + [1]) + ([1] + [0, 1, 0] + [0, 1, 1] + [0, 0, 1, 0, 1]) + [1]
  {
    CodeWords();
    DonorBits();
    hide ExpGolomb, Unpacked, Log2;
    var j := JobAt(address);
    assert HeadBits(SPS, j.pps, 0, j.want) == [1] + [1] + [0, 1, 0];
    assert DonorBlock(DONOR) == BITS[7..8] == [1];
    assert ListBits(j.pps, DONOR.header) == [1] + [0, 1, 0] + [0, 1, 1] + [0, 0, 1, 0, 1];
  }

  const HEADER_BITS: seq<Bit> := [1, 1, 0, 1, 0, 0, 0, 0] + ([0, 1, 1, 1, 0, 1, 0, 0] + ([1, 1, 0, 0, 1, 0, 1, 1] + [1, 0, 0, 0, 0, 0, 0, 0]))

  lemma NoTail(j: Job)
    requires Sized(j) && j.pps == PpsWith(false)
    ensures Unaligned(j) == Prefix(j) + [1]
  {
    hide Prefix, Entries;
    assert TailBits(j.pps, Entries(j)) == [];
  }

  lemma Spelled()
    ensures [1] + [1] + [0, 1, 0] + ([0, 0, 0, 0] + [1] + [1]) + ([1] + [0, 1, 0] + [0, 1, 1] + [0, 0, 1, 0, 1]) + [1] + [1]
         == HEADER_BITS[..25]
  {
  }

  lemma FirstHeaderBits(address: nat)
    ensures Sized(JobAt(address)) && Unaligned(JobAt(address)) == HEADER_BITS[..25]
  {
    hide *;
    FirstParts(address);
    FirstPrefix(address);
    NoTail(JobAt(address));
    Spelled();
  }

  lemma FirstParts(address: nat)
    ensures var j := JobAt(address);
            Sized(j) && j.pps == PpsWith(false) && j.donor.header0 == 2 && j.donor.header1 == 1 && HeaderZeros(j.donor) == 0
  {
  }

  lemma RbspParts(j: Job)
    requires Sized(j)
    ensures Rbsp(j) == HeaderBytes(j) + PayloadBytes(Segments(j))
  {
    hide HeaderBytes, PayloadBytes, Segments;
  }

  /** First slice, no address: the header is the same for every address. */
  lemma FirstHeader(address: nat)
    ensures Sized(JobAt(address)) && HeaderBytes(JobAt(address)) == [0xD0, 0x74, 0xCB, 0x80]
  {
    hide *;
    FirstHeaderBits(address);
    HeaderBytesAre(JobAt(address));
    HeaderOctets();
  }

  lemma HeaderBytesAre(j: Job)
    requires Sized(j) && Unaligned(j) == HEADER_BITS[..25]
    ensures HeaderBytes(j) == Packed(HEADER_BITS)
  {
    hide Unaligned, Aligned;
    AlignedIs(HEADER_BITS[..25], HEADER_BITS[25..]);
    assert HEADER_BITS[..25] + HEADER_BITS[25..] == HEADER_BITS;
  }

  lemma HeaderOctets()
    ensures Packed(HEADER_BITS) == [0xD0, 0x74, 0xCB, 0x80]
  {
    hide Packed;
    var a: seq<Bit>, b: seq<Bit> := [1, 1, 0, 1, 0, 0, 0, 0], [0, 1, 1, 1, 0, 1, 0, 0];
    var c: seq<Bit>, d: seq<Bit> := [1, 1, 0, 0, 1, 0, 1, 1], [1, 0, 0, 0, 0, 0, 0, 0];
    PackedStep(a, b + (c + d));
    PackedStep(b, c + d);
    PackedStep(c, d);
    PackedStep(d, []);
    assert d + [] == d;
  }

  lemma NoZeros(a: Byte, b: Byte)
    requires a > 3 && b > 3
    ensures Escaped(0, [0xD0, 0x74, 0xCB, 0x80, a, b]) == [0xD0, 0x74, 0xCB, 0x80, a, b]
  {
    var s: seq<Byte> := [0xD0, 0x74, 0xCB, 0x80, a, b];
    assert s[1..] == [0x74, 0xCB, 0x80, a, b] && s[2..] == [0xCB, 0x80, a, b] && s[3..] == [0x80, a, b];
    assert s[4..] == [a, b] && s[5..] == [b] && s[6..] == [];
    assert Escaped(0, s[5..]) == s[5..] && Escaped(0, s[4..]) == s[4..] && Escaped(0, s[3..]) == s[3..];
    assert Escaped(0, s[2..]) == s[2..] && Escaped(0, s[1..]) == s[1..];
  }

  /** It is not refused, and what is appended is a slice header for the first CTU with slice data that codes none. */
  lemma WrappedUnit()
    ensures var j := WrappedJob();
            && Shaped(j.sps) && Sized(j) && !Unwrapped(j) && BelowPicture(j) && !Refuses(j.sps, j.pps, j.donor, j.want, j.count)
            && [0, 0, 0, 1, j.donor.header0, j.donor.header1] + Escaped(HeaderZeros(j.donor), Rbsp(j))
               == [0, 0, 0, 1, 2, 1, 0xD0, 0x74, 0xCB, 0x80, 0xFE, 0x80]
  {
    hide *;
    WrappedShape();
    assert WrappedJob() == JobAt(0xFFFF_FFFF) by { WrappedIs(); }
    FirstParts(0xFFFF_FFFF);
    FirstHeader(0xFFFF_FFFF);
    NothingCoded(WrappedJob());
    RbspParts(WrappedJob());
    NoZeros(0xFE, 0x80);
    assert [0xD0, 0x74, 0xCB, 0x80] + [0xFE, 0x80] == [0xD0, 0x74, 0xCB, 0x80, 0xFE, 0x80];
  }

  lemma WrappedIs()
    ensures WrappedJob() == JobAt(0xFFFF_FFFF) && JobWith(false) == JobAt(0)
  {
  }

  // ---- the unit for the whole picture --------------------------------------------------------------------------

  lemma Contexts0()
    ensures FreshContexts(0) == [Cabac.Ctx(8, 1), Cabac.Ctx(8, 1), Cabac.Ctx(32, 1), Cabac.Ctx(39, 0), Cabac.Ctx(7, 0), Cabac.Ctx(7, 0)]
  {
    assert CtxInit(107, 0) == Cabac.Ctx(8, 1);
    assert CtxInit(139, 0) == Cabac.Ctx(8, 1);
    assert CtxInit(126, 0) == Cabac.Ctx(32, 1);
    assert CtxInit(197, 0) == Cabac.Ctx(39, 0);
    assert CtxInit(185, 0) == Cabac.Ctx(7, 0);
    assert CtxInit(201, 0) == Cabac.Ctx(7, 0);
    hide CtxInit;
  }

  lemma Contexts26()
    ensures FreshContexts(26) == [Cabac.Ctx(16, 0), Cabac.Ctx(0, 0), Cabac.Ctx(15, 1), Cabac.Ctx(15, 0), Cabac.Ctx(8, 1), Cabac.Ctx(16, 1)]
  {
    assert CtxInit(107, 26) == Cabac.Ctx(16, 0);
    assert CtxInit(139, 26) == Cabac.Ctx(0, 0);
    assert CtxInit(126, 26) == Cabac.Ctx(15, 1);
    assert CtxInit(197, 26) == Cabac.Ctx(15, 0);
    assert CtxInit(185, 26) == Cabac.Ctx(8, 1);
    assert CtxInit(201, 26) == Cabac.Ctx(16, 1);
    hide CtxInit;
  }

  lemma Contexts30()
    ensures FreshContexts(30) == [Cabac.Ctx(20, 0), Cabac.Ctx(1, 0), Cabac.Ctx(13, 1), Cabac.Ctx(11, 0), Cabac.Ctx(10, 1), Cabac.Ctx(20, 1)]
  {
    assert CtxInit(107, 30) == Cabac.Ctx(20, 0);
    assert CtxInit(139, 30) == Cabac.Ctx(1, 0);
    assert CtxInit(126, 30) == Cabac.Ctx(13, 1);
    assert CtxInit(197, 30) == Cabac.Ctx(11, 0);
    assert CtxInit(185, 30) == Cabac.Ctx(10, 1);
    assert CtxInit(201, 30) == Cabac.Ctx(20, 1);
    hide CtxInit;
  }

  lemma Contexts51()
    ensures FreshContexts(51) == [Cabac.Ctx(39, 0), Cabac.Ctx(7, 0), Cabac.Ctx(0, 1), Cabac.Ctx(7, 1), Cabac.Ctx(23, 1), Cabac.Ctx(39, 1)]
  {
    assert CtxInit(107, 51) == Cabac.Ctx(39, 0);
    assert CtxInit(139, 51) == Cabac.Ctx(7, 0);
    assert CtxInit(126, 51) == Cabac.Ctx(0, 1);
    assert CtxInit(197, 51) == Cabac.Ctx(7, 1);
    assert CtxInit(185, 51) == Cabac.Ctx(23, 1);
    assert CtxInit(201, 51) == Cabac.Ctx(39, 1);
    hide CtxInit;
  }

  /** Where the contexts start, at the first, two middle and the last quantiser. */
  lemma InitialContexts()
    ensures FreshContexts(0) == [Cabac.Ctx(8, 1), Cabac.Ctx(8, 1), Cabac.Ctx(32, 1), Cabac.Ctx(39, 0), Cabac.Ctx(7, 0), Cabac.Ctx(7, 0)]
    ensures FreshContexts(26) == [Cabac.Ctx(16, 0), Cabac.Ctx(0, 0), Cabac.Ctx(15, 1), Cabac.Ctx(15, 0), Cabac.Ctx(8, 1), Cabac.Ctx(16, 1)]
    ensures FreshContexts(30) == [Cabac.Ctx(20, 0), Cabac.Ctx(1, 0), Cabac.Ctx(13, 1), Cabac.Ctx(11, 0), Cabac.Ctx(10, 1), Cabac.Ctx(20, 1)]
    ensures FreshContexts(51) == [Cabac.Ctx(39, 0), Cabac.Ctx(7, 0), Cabac.Ctx(0, 1), Cabac.Ctx(7, 1), Cabac.Ctx(23, 1), Cabac.Ctx(39, 1)]
  {
    hide *;
    Contexts0();
    Contexts26();
    Contexts30();
    Contexts51();
  }

  /** A CTU inside the picture is one unit, not split and skipped. */
  const WHOLE: seq<Cabac.Op> := [Cabac.Code(0, 0), Cabac.Code(3, 1)]

  lemma WholeUnit()
    ensures EmitCtu(Geometry(8, 8, 3, 1), 0, 0, map[]).ops == WHOLE
  {
    hide Mark;
    var g := Geometry(8, 8, 3, 1);
    assert Pow2(3) == 2 * Pow2(2) == 4 * Pow2(1) == 8;
    assert RootX(g, 0) == 0 && RootY(g, 0) == 0;
    assert UnitOps(g, 0, 0, map[], 0, 0, 3, 0) == WHOLE;
  }

  lemma WholePlan()
    ensures var g := Geometry(8, 8, 3, 1);
            Plan(g, false, 26, 0, 1) == [Segment(FreshContexts(26), WHOLE)] && Sound(Segment(FreshContexts(26), WHOLE))
  {
    hide FreshContexts, EmitCtu;
    var g := Geometry(8, 8, 3, 1);
    WholeUnit();
    var w := WalkTo(g, false, 26, 0, 0);
    assert w == Walk([], FreshContexts(26), [], FreshContexts(26), map[], map[]);
    assert w.ops + WHOLE == WHOLE;
    assert w.finished + [Segment(w.start, WHOLE)] == [Segment(w.start, WHOLE)];
  }

  /** The split bin takes 104 of 510, the skip bin 95 of 406. */
  lemma WholeBins()
    ensures Cabac.AfterBin(Cabac.ENC_START, Cabac.Ctx(16, 0), 0) == Cabac.ENC_START.(range := 406)
    ensures Cabac.AfterBin(Cabac.ENC_START.(range := 406), Cabac.Ctx(15, 0), 1) == Cabac.Enc(220, 380, 0, false, [1])
  {
    var e0, e1, e2 := Cabac.Enc(311, 95, 0, true, []), Cabac.Enc(110, 190, 1, true, []), Cabac.Enc(220, 380, 0, false, [1]);
    assert Cabac.Narrowed(Cabac.ENC_START, Cabac.Ctx(16, 0), 0) == Cabac.ENC_START.(range := 406);
    assert Cabac.Narrowed(Cabac.ENC_START.(range := 406), Cabac.Ctx(15, 0), 1) == e0;
    assert Cabac.Shifted(e0) == e1 && Cabac.Shifted(e1) == e2;
    hide Cabac.Renormed, Cabac.Shifted, Cabac.LPS_TABLE;
    CabacLaws.Renorming(Cabac.ENC_START.(range := 406));
    CabacLaws.Renorming(e2);
    CabacLaws.Renorming(e1);
    CabacLaws.Renorming(e0);
  }

  lemma WholeFlushStart()
    ensures Cabac.FlushStart(Cabac.Enc(220, 380, 0, false, [1])) == Cabac.Enc(256, 256, 1, false, [1, 1, 0, 0, 1, 0, 1])
  {
    var e0, e1, e2 := Cabac.Enc(598, 2, 0, false, [1]), Cabac.Enc(172, 4, 0, false, [1, 1]), Cabac.Enc(344, 8, 0, false, [1, 1, 0]);
    var e3, e4 := Cabac.Enc(176, 16, 1, false, [1, 1, 0]), Cabac.Enc(352, 32, 0, false, [1, 1, 0, 0, 1]);
    var e5, e6 := Cabac.Enc(192, 64, 1, false, [1, 1, 0, 0, 1]), Cabac.Enc(384, 128, 0, false, [1, 1, 0, 0, 1, 0, 1]);
    var e7 := Cabac.Enc(256, 256, 1, false, [1, 1, 0, 0, 1, 0, 1]);
    assert Cabac.Shifted(e0) == e1 && Cabac.Shifted(e1) == e2 && Cabac.Shifted(e2) == e3 && Cabac.Shifted(e3) == e4;
    assert Cabac.Shifted(e4) == e5 && Cabac.Shifted(e5) == e6 && Cabac.Shifted(e6) == e7;
    hide Cabac.Renormed, Cabac.Shifted;
    CabacLaws.Renorming(e7);
    CabacLaws.Renorming(e6);
    CabacLaws.Renorming(e5);
    CabacLaws.Renorming(e4);
    CabacLaws.Renorming(e3);
    CabacLaws.Renorming(e2);
    CabacLaws.Renorming(e1);
    CabacLaws.Renorming(e0);
  }

  /** The flush after them. */
  lemma WholeFlush()
    ensures Cabac.AfterFlush(Cabac.Enc(220, 380, 0, false, [1])).out == [1, 1, 0, 0, 1, 0, 1, 0, 1, 1, 1]
  {
    WholeFlushStart();
    hide Cabac.FlushStart;
  }

  lemma WholeOut()
    ensures Sound(Segment(FreshContexts(26), WHOLE))
    ensures SegmentOut(Segment(FreshContexts(26), WHOLE)) == [1, 1, 0, 0, 1, 0, 1, 0, 1, 1, 1]
  {
    hide *;
    WholePlan();
    OutIs(Segment(FreshContexts(26), WHOLE));
    Contexts26();
    WholeCoded(FreshContexts(26));
    WholeBins();
    WholeFlush();
  }

  lemma WholeCoded(ctxs: seq<Cabac.Ctx>)
    requires |ctxs| == 6 && ctxs[0] == Cabac.Ctx(16, 0) && ctxs[3] == Cabac.Ctx(15, 0)
    ensures Cabac.Ready(Cabac.ENC_START) && Cabac.Usable(WHOLE, ctxs) && Cabac.Ready(Cabac.Enc(220, 380, 0, false, [1]))
    ensures Cabac.EncodeAll(Cabac.ENC_START, ctxs, WHOLE) == Cabac.AfterFlush(Cabac.Enc(220, 380, 0, false, [1]))
  {
    hide *;
    Cabac.StartReady();
    WholeBins();
    WholeUsable(ctxs);
    var rest: seq<Cabac.Op> := [Cabac.Code(3, 1)] + [];
    CabacLaws.BinStep(Cabac.ENC_START, ctxs, 0, 0, rest);
    var next := ctxs[0 := Cabac.NextCtx(ctxs[0], 0)];
    CabacLaws.BinStep(Cabac.ENC_START.(range := 406), next, 3, 1, []);
    CabacLaws.NoMore(Cabac.Enc(220, 380, 0, false, [1]), next[3 := Cabac.NextCtx(next[3], 1)]);
  }

  lemma WholeUsable(ctxs: seq<Cabac.Ctx>)
    requires |ctxs| == 6
    ensures WHOLE == [Cabac.Code(0, 0)] + ([Cabac.Code(3, 1)] + []) && Cabac.Usable(WHOLE, ctxs)
  {
    assert WHOLE == [Cabac.Code(0, 0)] + ([Cabac.Code(3, 1)] + []);
  }

  lemma WholePayload()
    ensures AllSound([Segment(FreshContexts(26), WHOLE)])
    ensures PayloadBytes([Segment(FreshContexts(26), WHOLE)]) == [0xCA, 0xE0]
  {
    hide *;
    WholeOut();
    var s := Segment(FreshContexts(26), WHOLE);
    var a: seq<Bit>, b: seq<Bit> := [1, 1, 0, 0, 1, 0, 1, 0], [1, 1, 1, 0, 0, 0, 0, 0];
    AlignedIs([1, 1, 0, 0, 1, 0, 1, 0, 1, 1, 1], [0, 0, 0, 0, 0]);
    assert a + b == [1, 1, 0, 0, 1, 0, 1, 0, 1, 1, 1] + [0, 0, 0, 0, 0];
    SegmentAligned(s);
    OneSegmentBits(s);
    PayloadIs([s]);
    WholePacked();
  }

  lemma SegmentAligned(s: Segment)
    requires Sound(s)
    ensures SegmentBits(s) == Aligned(SegmentOut(s))
  {
    hide Aligned, SegmentOut;
  }

  lemma WholePacked()
    ensures Packed([1, 1, 0, 0, 1, 0, 1, 0] + [1, 1, 1, 0, 0, 0, 0, 0]) == [0xCA, 0xE0]
  {
    hide Packed;
    var rest: seq<Bit> := [1, 1, 1, 0, 0, 0, 0, 0];
    PackedStep([1, 1, 0, 0, 1, 0, 1, 0], rest);
    PackedStep(rest, []);
    assert rest + [] == rest;
  }

  lemma WholeParts()
    ensures var j := JobAt(0);
            && j.want.address == 0 && j.count == 1 && !j.pps.wpp && j.pps.initQp + j.donor.header.qpDelta == 26 && Sized(j)
            && GeometryOf(j.sps) == Geometry(8, 8, 3, 1)
  {
    assert ShiftRight(64, 3) == 8 by { assert ShiftRight(64, 3) == ShiftRight(32, 2) == ShiftRight(16, 1) == ShiftRight(8, 0); }
  }

  /** The only CTU of a 64 by 64 picture at QP 26: the unit that conceals it, byte by byte. */
  lemma WholeUnitBytes()
    ensures var j := JobAt(0);
            && Accepted(j)
            && [0, 0, 0, 1, j.donor.header0, j.donor.header1] + Escaped(HeaderZeros(j.donor), Rbsp(j))
               == [0, 0, 0, 1, 2, 1, 0xD0, 0x74, 0xCB, 0x80, 0xCA, 0xE0]
  {
    hide *;
    WrappedIs();
    JobAccepted(false);
    WholeParts();
    FirstParts(0);
    FirstHeader(0);
    PlanOf(JobAt(0));
    WholePlan();
    WholePayload();
    RbspParts(JobAt(0));
    NoZeros(0xCA, 0xE0);
    assert [0xD0, 0x74, 0xCB, 0x80] + [0xCA, 0xE0] == [0xD0, 0x74, 0xCB, 0x80, 0xCA, 0xE0];
  }
}
