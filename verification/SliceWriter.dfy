/** The header writer for concealment slices, and what a parser reads back from what it writes. */
module SliceWriter {
  import opened Bytes
  import opened Bits
  import opened NalUnit
  import opened SliceSyntax
  import opened SliceParser

  function When(c: bool, s: seq<Bit>): seq<Bit> {
    if c then s else []
  }

  function AsBit(c: bool): Bit {
    if c then 1 else 0
  }

  /** What the caller asks for: where the slice starts, and an order count when it is not the donor's. */
  datatype Wanted = Wanted(address: nat, first: bool, poc: Option<nat>)

  function HeadBits(sps: Sps, pps: Pps, ppsId: nat, want: Wanted): seq<Bit> {
    [AsBit(want.first)] + ExpGolomb(ppsId) + When(!want.first && pps.dependentSlices, [0])
    + When(!want.first, Binary(want.address, sps.addrBits)) + Binary(0, pps.extraBits) + ExpGolomb(1)
    + When(pps.outputFlag, [1])
  }

  /** The order count's low bits: the wanted one, or the donor's. */
  function PocLsb(sps: Sps, donor: Picture, want: Wanted): nat {
    PowPositive(sps.log2MaxPocLsb);
    if want.poc.Some? then want.poc.value % Pow2(sps.log2MaxPocLsb) else donor.poc
  }

  /** The donor's reference block. */
  function DonorBlock(donor: Slice): seq<Bit>
    requires donor.header.pic.begin <= donor.header.pic.end <= 8 * |donor.rbsp|
  {
    Unpacked(donor.rbsp)[donor.header.pic.begin..donor.header.pic.end]
  }

  function PictureBits(sps: Sps, poc: nat, block: seq<Bit>, tmvp: bool): seq<Bit> {
    Binary(poc, sps.log2MaxPocLsb) + block + When(sps.temporalMvp, [AsBit(tmvp)])
  }

  /** Length of list 0: one picture, or with motion vector prediction the donor's length. */
  function RefsWritten(donor: Header): nat {
    if donor.pic.tmvp && donor.lists.refsL0 > 1 then donor.lists.refsL0 else 1
  }

  function LengthBits(pps: Pps, n: nat): seq<Bit>
    requires n > 0
  {
    if pps.refsL0 != n then [1] + ExpGolomb(n - 1) else [0]
  }

  predicate Indexed(donor: Header) {
    donor.pic.tmvp && RefsWritten(donor) > 1
  }

  function CollocatedBits(pps: Pps, donor: Header): seq<Bit> {
    When(pps.cabacInit, [0]) + When(Indexed(donor), ExpGolomb(donor.lists.collocated))
  }

  function ListBits(pps: Pps, donor: Header): seq<Bit> {
    LengthBits(pps, RefsWritten(donor)) + When(pps.listsModification && donor.pic.refs > 1, [0])
    + CollocatedBits(pps, donor) + ExpGolomb(4)
  }

  /** Everything the parser looks at. */
  function PrefixBits(sps: Sps, pps: Pps, donor: Slice, want: Wanted): seq<Bit>
    requires donor.header.pic.begin <= donor.header.pic.end <= 8 * |donor.rbsp|
  {
    HeadBits(sps, pps, donor.ppsId, want)
    + PictureBits(sps, PocLsb(sps, donor.header.pic, want), DonorBlock(donor), donor.header.pic.tmvp)
    + When(sps.sao, [0, 0]) + ListBits(pps, donor.header) + SignedGolomb(donor.header.qpDelta)
  }

  // ---- reading the pieces --------------------------------------------------------------

  lemma ReadsBit(c: bool, b: seq<Bit>, pos: nat, x: Bit)
    requires Holds(b, pos, When(c, [x]))
    ensures TakeIf(c, b, pos, 1) == Done(Step(if c then x as nat else 0, pos + |When(c, [x])|))
    ensures c ==> TakeU(b, pos, 1) == Done(Step(x, pos + 1))
  {
    if c { OneBit(b, pos); }
  }

  lemma ReadsU(c: bool, b: seq<Bit>, pos: nat, v: nat, n: nat)
    requires (c ==> v < Pow2(n)) && Holds(b, pos, When(c, Binary(v, n)))
    ensures TakeIf(c, b, pos, n) == Done(Step(if c then v else 0, pos + |When(c, Binary(v, n))|))
    ensures c ==> TakeU(b, pos, n) == Done(Step(v, pos + n))
  {
    hide Pow2, Binary, Value;
    if c { URoundTrip(b, pos, v, n); }
  }

  lemma ReadsUe(c: bool, b: seq<Bit>, pos: nat, v: nat)
    requires v < 0xFFFF_FFFF && Holds(b, pos, When(c, ExpGolomb(v)))
    ensures TakeUeIf(c, b, pos) == Done(Step(if c then v else 0, pos + |When(c, ExpGolomb(v))|))
    ensures c ==> TakeUe(b, pos) == Done(Step(v, pos + |ExpGolomb(v)|))
  {
    hide ExpGolomb, ReadUe;
    if c { UeRoundTrip(b, pos, v); }
  }

  lemma {:induction false} SkipsBits(b: seq<Bit>, pos: nat, n: nat)
    requires pos + n <= |b|
    ensures SkipMany(b, pos, n, 1) == Done(Step(0, pos + n))
    decreases n
  {
    hide Value;
    if n != 0 { SkipsBits(b, pos + 1, n - 1); }
  }

  lemma HeadReads(b: seq<Bit>, nalType: nat, sps: Sps, pps: Pps, want: Wanted)
    requires Holds(b, 0, HeadBits(sps, pps, pps.id, want)) && pps.id < 0xFFFF_FFFF && !IsIrap(nalType)
    requires !want.first ==> want.address < Pow2(sps.addrBits)
    ensures ParseHead(b, nalType, sps, pps)
      == Done(Step(Head(want.first, if want.first then 0 else want.address, KIND_P), |HeadBits(sps, pps, pps.id, want)|))
  {
    hide Binary, ExpGolomb, TakeU, TakeUe, TakeIf, SkipMany, When, Holds, Pow2, Value;
    var p1 := [AsBit(want.first)];
    var p2 := p1 + ExpGolomb(pps.id);
    var p3 := p2 + When(!want.first && pps.dependentSlices, [0]);
    var p4 := p3 + When(!want.first, Binary(want.address, sps.addrBits));
    var p5 := p4 + Binary(0, pps.extraBits);
    var p6 := p5 + ExpGolomb(1);
    HoldsSplit(b, 0, p6, When(pps.outputFlag, [1]));
    HoldsSplit(b, 0, p5, ExpGolomb(1));
    HoldsSplit(b, 0, p4, Binary(0, pps.extraBits));
    HoldsSplit(b, 0, p3, When(!want.first, Binary(want.address, sps.addrBits)));
    HoldsSplit(b, 0, p2, When(!want.first && pps.dependentSlices, [0]));
    HoldsSplit(b, 0, p1, ExpGolomb(pps.id));
    Present(p1);
    Present(ExpGolomb(pps.id));
    Present(ExpGolomb(1));
    ReadsBit(true, b, 0, AsBit(want.first));
    NotTaken(b, 1, 1);
    ReadsUe(true, b, 1, pps.id);
    ReadsBit(!want.first && pps.dependentSlices, b, |p2|, 0);
    ReadsU(!want.first, b, |p3|, want.address, sps.addrBits);
    HeldLength(b, |p4|, Binary(0, pps.extraBits));
    SkipsBits(b, |p4|, pps.extraBits);
    ReadsUe(true, b, |p5|, 1);
    ReadsBit(pps.outputFlag, b, |p6|, 1);
  }

  lemma Present(s: seq<Bit>)
    ensures When(true, s) == s
  {
  }

  lemma HeldLength(b: seq<Bit>, pos: nat, w: seq<Bit>)
    requires Holds(b, pos, w)
    ensures pos + |w| <= |b| && b[pos..pos + |w|] == w
  {
  }

  lemma NotTaken(b: seq<Bit>, pos: nat, n: nat)
    ensures TakeIf(false, b, pos, n) == Done(Step(0, pos)) && TakeUeIf(false, b, pos) == Done(Step(0, pos))
  {
  }

  /** A reference block copied verbatim says the same. */
  lemma BlockReads(b: seq<Bit>, from: nat, sps: Sps, d: seq<Bit>, begin: nat, end: nat, refs: U16)
    requires begin <= end <= |d| && References(d, begin, sps) == Done(Step(refs, end))
    requires Holds(b, from, d[begin..end])
    ensures References(b, from, sps) == Done(Step(refs, from + (end - begin)))
  {
    hide References;
    var shift := from - begin;
    forall i | begin <= i < end ensures b[i + shift] == d[i] {
      HoldsAt(b, from, d[begin..end], i - begin);
    }
    MovedReferences(d, begin, end, b, shift, begin, sps);
  }

  /** The picture part: the order count, the same reference block with the same count, the same flag. */
  lemma PictureReads(b: seq<Bit>, pos: nat, nalType: nat, sps: Sps, poc: nat, d: seq<Bit>, begin: nat, end: nat,
                     refs: U16, tmvp: bool)
    requires !IsIdr(nalType) && poc < Pow2(sps.log2MaxPocLsb) && (tmvp ==> sps.temporalMvp)
    requires begin <= end <= |d| && References(d, begin, sps) == Done(Step(refs, end))
    requires Holds(b, pos, PictureBits(sps, poc, d[begin..end], tmvp))
    ensures var from := pos + sps.log2MaxPocLsb;
      && Holds(b, from, d[begin..end])
      && ParsePicture(b, pos, nalType, sps)
         == Done(Step(Picture(poc, true, from, from + (end - begin), refs, tmvp),
                      pos + |PictureBits(sps, poc, d[begin..end], tmvp)|))
  {
    hide Binary, TakeU, TakeIf, When, Pow2, Value, References, Holds;
    var block := d[begin..end];
    var p1 := Binary(poc, sps.log2MaxPocLsb);
    var p2 := p1 + block;
    var from := pos + sps.log2MaxPocLsb;
    HoldsSplit(b, pos, p2, When(sps.temporalMvp, [AsBit(tmvp)]));
    HoldsSplit(b, pos, p1, block);
    Present(p1);
    ReadsU(true, b, pos, poc, sps.log2MaxPocLsb);
    BlockReads(b, from, sps, d, begin, end, refs);
    ReadsBit(sps.temporalMvp, b, pos + |p2|, AsBit(tmvp));
    WhenLength(sps.temporalMvp, AsBit(tmvp));
  }

  lemma WhenLength(c: bool, x: Bit)
    ensures |When(c, [x])| == if c then 1 else 0
  {
  }

  lemma LengthReads(b: seq<Bit>, pos: nat, pps: Pps, n: nat)
    requires 0 < n <= 16 && Holds(b, pos, LengthBits(pps, n))
    ensures ParseLengths(b, pos, KIND_P, pps)
      == if pps.refsL1 > 16 then Refused else Done(Step(Lengths(n, pps.refsL1), pos + |LengthBits(pps, n)|))
  {
    hide ExpGolomb, TakeU, TakeUe, TakeUeIf, When, Holds;
    if pps.refsL0 != n {
      HoldsSplit(b, pos, [1], ExpGolomb(n - 1));
      Present([1]);
      Present(ExpGolomb(n - 1));
      ReadsBit(true, b, pos, 1);
      ReadsUe(true, b, pos + 1, n - 1);
      NotTaken(b, pos + |LengthBits(pps, n)|, 1);
    } else {
      Present([0]);
      ReadsBit(true, b, pos, 0);
      NotTaken(b, pos + 1, 1);
    }
  }

  lemma CollocatedReads(b: seq<Bit>, pos: nat, pps: Pps, donor: Header)
    requires Holds(b, pos, CollocatedBits(pps, donor))
    ensures ParseCollocated(b, pos, KIND_P, donor.pic.tmvp, Lengths(RefsWritten(donor), pps.refsL1), pps)
      == Done(Step(if Indexed(donor) then donor.lists.collocated else 0, pos + |CollocatedBits(pps, donor)|))
  {
    hide ExpGolomb, TakeIf, TakeUeIf, When, Holds;
    var p1 := When(pps.cabacInit, [0]);
    HoldsSplit(b, pos, p1, When(Indexed(donor), ExpGolomb(donor.lists.collocated)));
    NotTaken(b, pos, 1);
    ReadsBit(pps.cabacInit, b, pos, 0);
    NotTaken(b, pos + |p1|, 1);
    ReadsUe(Indexed(donor), b, pos + |p1|, donor.lists.collocated);
  }

  lemma ListsRead(b: seq<Bit>, pos: nat, pps: Pps, donor: Header, pic: Picture)
    requires donor.lists.refsL0 <= 16 && Holds(b, pos, ListBits(pps, donor))
    requires pic.refs == donor.pic.refs && pic.tmvp == donor.pic.tmvp
    ensures ParseLists(b, pos, KIND_P, pic, pps)
      == if pps.refsL1 > 16 || pps.weightedPred then Refused
         else Done(Step(Lists(RefsWritten(donor), if Indexed(donor) then donor.lists.collocated else 0),
                        pos + |ListBits(pps, donor)|))
  {
    hide ExpGolomb, TakeUe, When, Holds, LengthBits, ParseLengths, CollocatedBits, ParseCollocated, SkipModification;
    var n := RefsWritten(donor);
    var modified := pps.listsModification && donor.pic.refs > 1;
    var p1 := LengthBits(pps, n);
    var p2 := p1 + When(modified, [0]);
    var p3 := p2 + CollocatedBits(pps, donor);
    HoldsSplit(b, pos, p3, ExpGolomb(4));
    HoldsSplit(b, pos, p2, CollocatedBits(pps, donor));
    HoldsSplit(b, pos, p1, When(modified, [0]));
    LengthReads(b, pos, pps, n);
    ModificationReads(b, pos + |p1|, modified, Lengths(n, pps.refsL1), pic.refs);
    CollocatedReads(b, pos + |p2|, pps, donor);
    Present(ExpGolomb(4));
    ReadsUe(true, b, pos + |p3|, 4);
  }

  lemma ModificationReads(b: seq<Bit>, pos: nat, c: bool, n: Lengths, refs: U16)
    requires Holds(b, pos, When(c, [0]))
    ensures c ==> SkipModification(b, pos, KIND_P, n, refs) == Done(Step(0, pos + 1))
    ensures |When(c, [0])| == if c then 1 else 0
  {
    hide BitsFor;
    ReadsBit(c, b, pos, 0);
  }

  /** A donor as the parser leaves it. */
  ghost predicate Donated(donor: Slice, sps: Sps, pps: Pps) {
    && donor.ppsId == pps.id && donor.header.lists.refsL0 <= 16 && donor.header.pic.hasPoc
    && donor.header.pic.poc < Pow2(sps.log2MaxPocLsb) && (donor.header.pic.tmvp ==> sps.temporalMvp)
    && donor.header.pic.begin <= donor.header.pic.end <= 8 * |donor.rbsp|
    && References(Unpacked(donor.rbsp), donor.header.pic.begin, sps)
       == Done(Step(donor.header.pic.refs, donor.header.pic.end))
  }

  /** The header a parser reads back: the wanted start and order count, the donor's references and QP. */
  function Mirrored(sps: Sps, donor: Slice, want: Wanted, begin: nat): Header
    requires donor.header.pic.begin <= donor.header.pic.end
  {
    var d := donor.header;
    Header(
      Head(want.first, if want.first then 0 else want.address, KIND_P),
      Picture(PocLsb(sps, d.pic, want), true, begin, begin + (d.pic.end - d.pic.begin), d.pic.refs, d.pic.tmvp),
      Lists(RefsWritten(d), if Indexed(d) then d.lists.collocated else 0),
      d.qpDelta)
  }

  /** Where the copied reference block lies. */
  function BlockStart(sps: Sps, pps: Pps, donor: Slice, want: Wanted): nat {
    |HeadBits(sps, pps, donor.ppsId, want)| + sps.log2MaxPocLsb
  }

  predicate Writable(sps: Sps, pps: Pps, donor: Slice, want: Wanted) {
    && pps.id < 64 && (!want.first ==> want.address < Pow2(sps.addrBits))
    && -0x4000_0000 < donor.header.qpDelta < 0x4000_0000
  }

  lemma PocFits(sps: Sps, donor: Picture, want: Wanted)
    requires donor.poc < Pow2(sps.log2MaxPocLsb)
    ensures PocLsb(sps, donor, want) < Pow2(sps.log2MaxPocLsb)
  {
    PowPositive(sps.log2MaxPocLsb);
  }

  /** Two flags, or none. */
  lemma FlagsRead(c: bool, b: seq<Bit>, pos: nat)
    requires Holds(b, pos, When(c, [0, 0]))
    ensures TakeIf(c, b, pos, 1) == Done(Step(0, pos + if c then 1 else 0))
    ensures TakeIf(c, b, pos + if c then 1 else 0, 1) == Done(Step(0, pos + |When(c, [0, 0])|))
  {
    if c {
      assert [0, 0] == [0] + [0];
      HoldsSplit(b, pos, [0], [0]);
      OneBit(b, pos);
      OneBit(b, pos + 1);
    }
  }

  /** A parser with the whole header before it reads it back, unless lists or weights forbid. */
  lemma PrefixReads(b: seq<Bit>, nalType: nat, sps: Sps, pps: Pps, donor: Slice, want: Wanted)
    requires Donated(donor, sps, pps) && Writable(sps, pps, donor, want) && !IsIrap(nalType)
    requires Holds(b, 0, PrefixBits(sps, pps, donor, want))
    ensures ParseHeader(b, nalType, sps, pps)
      == if pps.refsL1 > 16 || pps.weightedPred then Refused
         else Done(Step(Mirrored(sps, donor, want, BlockStart(sps, pps, donor, want)), |PrefixBits(sps, pps, donor, want)|))
    ensures Holds(b, BlockStart(sps, pps, donor, want), DonorBlock(donor))
  {
    hide HeadBits, PictureBits, ListBits, SignedGolomb, When, TakeIf, TakeSe, Holds, References, Unpacked, Pow2;
    hide ParseHead, ParsePicture, ParseLists;
    var d := donor.header;
    var poc := PocLsb(sps, d.pic, want);
    var block := DonorBlock(donor);
    var p1 := HeadBits(sps, pps, donor.ppsId, want);
    var p2 := p1 + PictureBits(sps, poc, block, d.pic.tmvp);
    var p3 := p2 + When(sps.sao, [0, 0]);
    var p4 := p3 + ListBits(pps, d);
    HoldsSplit(b, 0, p4, SignedGolomb(d.qpDelta));
    HoldsSplit(b, 0, p3, ListBits(pps, d));
    HoldsSplit(b, 0, p2, When(sps.sao, [0, 0]));
    HoldsSplit(b, 0, p1, PictureBits(sps, poc, block, d.pic.tmvp));
    HeadReads(b, nalType, sps, pps, want);
    PocFits(sps, d.pic, want);
    PictureReads(b, |p1|, nalType, sps, poc, Unpacked(donor.rbsp), d.pic.begin, d.pic.end, d.pic.refs, d.pic.tmvp);
    FlagsRead(sps.sao, b, |p2|);
    ListsRead(b, |p3|, pps, d, ParsePicture(b, |p1|, nalType, sps).value.v);
    SeReads(b, |p4|, d.qpDelta);
  }

  lemma SeReads(b: seq<Bit>, pos: nat, v: int)
    requires -0x4000_0000 < v < 0x4000_0000 && Holds(b, pos, SignedGolomb(v))
    ensures TakeSe(b, pos) == Done(Step(v, pos + |SignedGolomb(v)|))
  {
    hide SignedGolomb, ReadSe;
    SeRoundTrip(b, pos, v);
  }

  lemma {:induction false} ValueBound(s: seq<Bit>)
    ensures Value(s) < Pow2(|s|)
    decreases |s|
  {
    if s != [] { ValueBound(s[..|s| - 1]); }
  }

  /** A parsed slice that is not an IDR one can be a donor. */
  lemma ParsedDonates(nal: seq<Byte>, sps: Sps, pps: Pps, donor: Slice)
    requires ParseSlice(nal, sps, pps) == Done(donor) && !IsIdr(NalType(donor.header0))
    ensures Donated(donor, sps, pps)
  {
    hide Unpacked, Unescaped, Capped, References, ParseHead, ParseLists, Value, Pow2;
    var b := Unpacked(donor.rbsp);
    var head := ParseHead(b, NalType(nal[0]), sps, pps).value;
    PictureDonates(b, head.pos, NalType(nal[0]), sps);
  }

  lemma PictureDonates(b: seq<Bit>, pos: nat, nalType: nat, sps: Sps)
    requires pos <= |b| && ParsePicture(b, pos, nalType, sps).Done? && !IsIdr(nalType)
    ensures var pic := ParsePicture(b, pos, nalType, sps).value.v;
      && pic.hasPoc && pic.poc < Pow2(sps.log2MaxPocLsb) && (pic.tmvp ==> sps.temporalMvp)
      && pic.begin <= pic.end <= |b| && References(b, pic.begin, sps) == Done(Step(pic.refs, pic.end))
  {
    hide References, Value, Pow2;
    ValueBound(b[pos..pos + sps.log2MaxPocLsb]);
  }

  /** The bits of a shortened byte string. */
  lemma CappedBits(d: seq<Byte>, cap: nat)
    ensures Unpacked(Capped(d, cap)) == Unpacked(d)[..if |d| <= cap then 8 * |d| else 8 * cap]
  {
    hide BitOf;
    if |d| > cap {
      assert d == d[..cap] + d[cap..];
      UnpackedAppend(d[..cap], d[cap..]);
    }
  }

  /** A parsed slice that says what was asked for and what the donor says, the reference block bit by bit. */
  ghost predicate Reports(sps: Sps, donor: Slice, want: Wanted, s: Slice) {
    && s.ppsId == donor.ppsId && s.header0 == donor.header0 && s.header1 == donor.header1
    && donor.header.pic.begin <= donor.header.pic.end <= 8 * |donor.rbsp|
    && s.header == Mirrored(sps, donor, want, s.header.pic.begin)
    && s.header.pic.end <= 8 * |s.rbsp| && DonorBlock(s) == DonorBlock(donor)
  }

  /**
   * The parser on a NAL unit with the written header in front: it succeeds exactly when the PPS has no
   * weighted prediction, its default list 1 is within bounds and the header part fits in the bytes the
   * parser unescapes; then it returns what was asked for and what the donor says, references verbatim.
   */
  lemma SynthesizedHeader(sps: Sps, pps: Pps, donor: Slice, want: Wanted, rbsp: seq<Byte>, nal: seq<Byte>)
    requires Donated(donor, sps, pps) && Writable(sps, pps, donor, want)
    requires !IsIrap(NalType(donor.header0)) && NalType(donor.header0) <= 31
    requires Holds(Unpacked(rbsp), 0, PrefixBits(sps, pps, donor, want)) && rbsp != []
    requires nal == [donor.header0, donor.header1] + Escaped(0, rbsp)
    ensures ParseSlice(nal, sps, pps).Done?
      <==> pps.refsL1 <= 16 && !pps.weightedPred && |PrefixBits(sps, pps, donor, want)| <= 8 * HEADER_CAP
    ensures ParseSlice(nal, sps, pps).Done? ==> Reports(sps, donor, want, ParseSlice(nal, sps, pps).value)
  {
    hide Unpacked, Unescaped, Escaped, ParseHeader, PrefixBits, DonorBlock, References, Pow2;
    var w := Unpacked(rbsp);
    var kept := Capped(rbsp, HEADER_CAP);
    var b := Unpacked(kept);
    EscapedLength(rbsp);
    assert nal[2..] == Escaped(0, rbsp);
    UnescapeInverts(0, rbsp);
    CappedBits(rbsp, HEADER_CAP);
    assert Moved(b, 0, |b|, w, 0);
    var nalType := NalType(donor.header0);
    PrefixReads(w, nalType, sps, pps, donor, want);
    if ParseHeader(b, nalType, sps, pps).Done? {
      KeptHeader(b, w, nalType, sps, pps);
    }
    var prefix := PrefixBits(sps, pps, donor, want);
    if |prefix| <= 8 * HEADER_CAP {
      HeldByPrefix(b, w, prefix);
      PrefixReads(b, nalType, sps, pps, donor, want);
      var begin := BlockStart(sps, pps, donor, want);
      HeldLength(b, begin, DonorBlock(donor));
      BlockLength(donor);
      if ParseHeader(b, nalType, sps, pps).Done? {
        CopiedBlock(ParseSlice(nal, sps, pps).value, donor, begin);
      }
    }
  }

  lemma EscapedLength(s: seq<Byte>)
    requires s != []
    ensures |Escaped(0, s)| >= 1
  {
  }

  lemma HeldByPrefix(b: seq<Bit>, w: seq<Bit>, s: seq<Bit>)
    requires b <= w && Holds(w, 0, s) && |s| <= |b|
    ensures Holds(b, 0, s)
  {
    assert b[0..|s|] == w[0..|s|];
  }

  lemma BlockLength(donor: Slice)
    requires donor.header.pic.begin <= donor.header.pic.end <= 8 * |donor.rbsp|
    ensures |DonorBlock(donor)| == donor.header.pic.end - donor.header.pic.begin
  {
  }

  lemma CopiedBlock(s: Slice, donor: Slice, begin: nat)
    requires donor.header.pic.begin <= donor.header.pic.end <= 8 * |donor.rbsp|
    requires s.header.pic.begin == begin && s.header.pic.end == begin + |DonorBlock(donor)|
    requires Holds(Unpacked(s.rbsp), begin, DonorBlock(donor))
    ensures s.header.pic.end <= 8 * |s.rbsp| && DonorBlock(s) == DonorBlock(donor)
  {
  }
}
