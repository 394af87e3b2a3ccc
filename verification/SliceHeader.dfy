/** The whole concealment slice header: prefix, loop filter flags, WPP entry points and alignment. */
module SliceHeader {
  import opened Bytes
  import opened Bits
  import opened SliceSyntax
  import opened SliceParser
  import opened SliceWriter

  // ---- entry points ----------------------------------------------------------------------

  /** The longest substream, at least one byte. */
  function MaxOffset(entries: seq<nat>): (m: nat)
    ensures m >= 1 && forall i :: 0 <= i < |entries| ==> entries[i] <= m
    ensures m == 1 || exists i :: 0 <= i < |entries| && entries[i] == m
  {
    if entries == [] then 1
    else
      var m := MaxOffset(entries[..|entries| - 1]);
      var e := entries[|entries| - 1];
      if e > m then e else m
  }

  /** Bits of an offset: at least one, and enough for the longest. */
  function OffsetWidth(entries: seq<nat>): (w: nat)
    ensures w >= 1
  {
    BitsSuffice(1, MaxOffset(entries));
    BitsFrom(1, MaxOffset(entries))
  }

  function Offsets(entries: seq<nat>, width: nat): seq<Bit>
    requires Positive(entries)
    decreases |entries|
  {
    if entries == [] then []
    else Offsets(entries[..|entries| - 1], width) + Binary(entries[|entries| - 1] - 1, width)
  }

  predicate Positive(entries: seq<nat>) {
    forall i :: 0 <= i < |entries| ==> entries[i] >= 1
  }

  /** Lengths that fit the offset fields of a header. */
  predicate Lengths32(entries: seq<nat>) {
    |entries| < 0xFFFF_FFFF && forall i :: 0 <= i < |entries| ==> 1 <= entries[i] <= 0x8000_0000
  }

  function EntryBits(entries: seq<nat>): seq<Bit>
    requires Positive(entries)
  {
    ExpGolomb(|entries|) + When(entries != [], ExpGolomb(OffsetWidth(entries) - 1) + Offsets(entries, OffsetWidth(entries)))
  }

  lemma {:induction false} BitsLeast(v: nat, n: nat, k: nat)
    requires Pow2(k) >= n && v <= k
    ensures BitsFrom(v, n) <= k
    decreases n - Pow2(v)
  {
    PowPositive(v);
    if Pow2(v) < n {
      if v == k { assert false; }
      BitsLeast(v + 1, n, k);
    }
  }

  lemma WidthBounds(entries: seq<nat>)
    requires Lengths32(entries)
    ensures 1 <= OffsetWidth(entries) <= 31
    ensures forall i :: 0 <= i < |entries| ==> entries[i] <= Pow2(OffsetWidth(entries))
  {
    hide Pow2;
    var m := MaxOffset(entries);
    Pow32();
    PowStep(31);
    BitsLeast(1, m, 31);
    BitsSuffice(1, m);
  }

  lemma PowStep(n: nat)
    ensures Pow2(n + 1) == 2 * Pow2(n)
  {
  }

  // ---- the tail --------------------------------------------------------------------------

  predicate DeblockingOff(pps: Pps) {
    pps.deblockingDisabled || pps.deblockingOverride
  }

  /** What follows slice_qp_delta. */
  function TailBits(pps: Pps, entries: seq<nat>): seq<Bit>
    requires Positive(entries)
  {
    When(pps.chromaQpOffsets, SignedGolomb(0) + SignedGolomb(0)) + When(pps.deblockingOverride, [1, 1])
    + When(pps.loopFilterAcross && !DeblockingOff(pps), [0])
    + When(pps.wpp, EntryBits(entries)) + When(pps.headerExtension, ExpGolomb(0))
  }

  /** The header, aligned: a one and zeros to the byte boundary. */
  function HeaderBits(sps: Sps, pps: Pps, donor: Slice, want: Wanted, entries: seq<nat>): seq<Bit>
    requires donor.header.pic.begin <= donor.header.pic.end <= 8 * |donor.rbsp| && Positive(entries)
  {
    Aligned(PrefixBits(sps, pps, donor, want) + TailBits(pps, entries) + [1])
  }

  // ---- a decoder's reading of the tail (section 7.3.6.1 of ITU-T H.265) ---------------------

  function ReadOffsets(b: seq<Bit>, pos: nat, n: nat, width: nat): (r: Outcome<Step<seq<nat>>>)
    decreases n
  {
    if n == 0 then Done(Step([], pos))
    else
      var rest :- ReadOffsets(b, pos, n - 1, width);
      var e :- TakeU(b, rest.pos, width);
      Done(Step(rest.v + [e.v + 1], e.pos))
  }

  function ReadEntries(b: seq<Bit>, pos: nat): Outcome<Step<seq<nat>>> {
    var n :- TakeUe(b, pos);
    if n.v == 0 then Done(Step([], n.pos))
    else
      var width :- TakeUe(b, n.pos);
      ReadOffsets(b, width.pos, n.v, width.v + 1)
  }

  function TakeSeIf(c: bool, b: seq<Bit>, pos: nat): Outcome<Step<int>> {
    if c then TakeSe(b, pos) else Done(Step(0, pos))
  }

  /** slice_deblocking_filter_disabled_flag, with its override. */
  function ReadDeblocking(b: seq<Bit>, pos: nat, pps: Pps): Outcome<Step<bool>> {
    var own :- TakeIf(pps.deblockingOverride, b, pos, 1);
    var off :- TakeIf(own.v != 0, b, own.pos, 1);
    var disabled := if own.v != 0 then off.v != 0 else pps.deblockingDisabled;
    var beta :- TakeSeIf(own.v != 0 && !disabled, b, off.pos);
    var tc :- TakeSeIf(own.v != 0 && !disabled, b, beta.pos);
    Done(Step(disabled, tc.pos))
  }

  /** The tail of a slice with both SAO flags clear: its entry points. */
  function ReadTail(b: seq<Bit>, pos: nat, pps: Pps): Outcome<Step<seq<nat>>> {
    var cb :- TakeSeIf(pps.chromaQpOffsets, b, pos);
    var cr :- TakeSeIf(pps.chromaQpOffsets, b, cb.pos);
    var disabled :- ReadDeblocking(b, cr.pos, pps);
    var across :- TakeIf(pps.loopFilterAcross && !disabled.v, b, disabled.pos, 1);
    var entries :- if pps.wpp then ReadEntries(b, across.pos) else Done(Step([], across.pos));
    var extension :- TakeUeIf(pps.headerExtension, b, entries.pos);
    var data :- SkipMany(b, extension.pos, 8 * extension.v, 1);
    Done(Step(entries.v, data.pos))
  }

  lemma {:induction false} OffsetsRead(b: seq<Bit>, pos: nat, entries: seq<nat>, width: nat)
    requires forall i :: 0 <= i < |entries| ==> 1 <= entries[i] <= Pow2(width)
    requires Holds(b, pos, Offsets(entries, width))
    ensures ReadOffsets(b, pos, |entries|, width) == Done(Step(entries, pos + |Offsets(entries, width)|))
    decreases |entries|
  {
    hide Pow2, Holds, Binary, TakeU;
    if entries != [] {
      var init, e := entries[..|entries| - 1], entries[|entries| - 1];
      HoldsSplit(b, pos, Offsets(init, width), Binary(e - 1, width));
      OffsetsRead(b, pos, init, width);
      Present(Binary(e - 1, width));
      ReadsU(true, b, pos + |Offsets(init, width)|, e - 1, width);
      assert entries == init + [e];
    }
  }

  lemma EntriesRead(b: seq<Bit>, pos: nat, entries: seq<nat>)
    requires Lengths32(entries) && Holds(b, pos, EntryBits(entries))
    ensures ReadEntries(b, pos) == Done(Step(entries, pos + |EntryBits(entries)|))
  {
    hide Pow2, Holds, ExpGolomb, TakeUe, Offsets, ReadOffsets, OffsetWidth;
    var count := ExpGolomb(|entries|);
    var width := OffsetWidth(entries);
    WidthBounds(entries);
    var offsets := ExpGolomb(width - 1) + Offsets(entries, width);
    HoldsSplit(b, pos, count, When(entries != [], offsets));
    Present(count);
    ReadsUe(true, b, pos, |entries|);
    if entries != [] {
      HoldsSplit(b, pos + |count|, ExpGolomb(width - 1), Offsets(entries, width));
      Present(ExpGolomb(width - 1));
      ReadsUe(true, b, pos + |count|, width - 1);
      OffsetsRead(b, pos + |count| + |ExpGolomb(width - 1)|, entries, width);
    }
  }

  lemma ChromaRead(c: bool, b: seq<Bit>, pos: nat)
    requires Holds(b, pos, When(c, SignedGolomb(0) + SignedGolomb(0)))
    ensures var n := if c then |SignedGolomb(0)| else 0;
      && TakeSeIf(c, b, pos) == Done(Step(0, pos + n)) && TakeSeIf(c, b, pos + n) == Done(Step(0, pos + 2 * n))
      && |When(c, SignedGolomb(0) + SignedGolomb(0))| == 2 * n
  {
    hide Holds, SignedGolomb, TakeSe;
    if c {
      HoldsSplit(b, pos, SignedGolomb(0), SignedGolomb(0));
      SeReads(b, pos, 0);
      SeReads(b, pos + |SignedGolomb(0)|, 0);
    }
  }

  lemma DeblockingRead(b: seq<Bit>, pos: nat, pps: Pps)
    requires Holds(b, pos, When(pps.deblockingOverride, [1, 1]))
    ensures ReadDeblocking(b, pos, pps)
      == Done(Step(DeblockingOff(pps), pos + |When(pps.deblockingOverride, [1, 1])|))
  {
    hide TakeU, TakeSe;
    if pps.deblockingOverride {
      assert [1, 1] == [1] + [1];
      HoldsSplit(b, pos, [1], [1]);
      Present([1]);
      ReadsBit(true, b, pos, 1);
      ReadsBit(true, b, pos + 1, 1);
    }
  }

  lemma EntriesReadIf(c: bool, b: seq<Bit>, pos: nat, entries: seq<nat>)
    requires Lengths32(entries) && (!c ==> entries == []) && Holds(b, pos, When(c, EntryBits(entries)))
    ensures (if c then ReadEntries(b, pos) else Done(Step([], pos)))
      == Done(Step(entries, pos + |When(c, EntryBits(entries))|))
  {
    hide Holds, ReadEntries, EntryBits;
    if c { EntriesRead(b, pos, entries); }
  }

  /** A decoder finds the entry points in the tail, and ends where it ends. */
  lemma TailReads(b: seq<Bit>, pos: nat, pps: Pps, entries: seq<nat>)
    requires Lengths32(entries) && (!pps.wpp ==> entries == [])
    requires Holds(b, pos, TailBits(pps, entries))
    ensures ReadTail(b, pos, pps) == Done(Step(entries, pos + |TailBits(pps, entries)|))
  {
    hide Holds, When, EntryBits, SignedGolomb, ExpGolomb, TakeIf, TakeUeIf, TakeSeIf, ReadDeblocking, ReadEntries, DeblockingOff;
    var across := pps.loopFilterAcross && !DeblockingOff(pps);
    var p1 := When(pps.chromaQpOffsets, SignedGolomb(0) + SignedGolomb(0));
    var p2 := p1 + When(pps.deblockingOverride, [1, 1]);
    var p3 := p2 + When(across, [0]);
    var p4 := p3 + When(pps.wpp, EntryBits(entries));
    HoldsSplit(b, pos, p4, When(pps.headerExtension, ExpGolomb(0)));
    HoldsSplit(b, pos, p3, When(pps.wpp, EntryBits(entries)));
    HoldsSplit(b, pos, p2, When(across, [0]));
    HoldsSplit(b, pos, p1, When(pps.deblockingOverride, [1, 1]));
    ChromaRead(pps.chromaQpOffsets, b, pos);
    DeblockingRead(b, pos + |p1|, pps);
    ReadsBit(across, b, pos + |p2|, 0);
    EntriesReadIf(pps.wpp, b, pos + |p3|, entries);
    ReadsUe(pps.headerExtension, b, pos + |p4|, 0);
  }

  // ---- the writer ------------------------------------------------------------------------

  lemma BinaryFlag(x: Bit)
    ensures Binary(x, 1) == [x]
  {
    assert Binary(x / 2, 0) == [];
  }

  lemma Regroup(a: seq<Bit>, b: seq<Bit>, c: seq<Bit>)
    ensures a + b + c == a + (b + c)
    ensures a + [] == a && [] + a == a
  {
  }

  /** Append a flag when the condition holds. */
  method PutFlag(bw: BitWriter, c: bool, x: Bit, ghost done: seq<Bit>, ghost start: seq<Bit>)
    requires bw.bits == start + done
    modifies bw
    ensures bw.bits == start + (done + When(c, [x]))
  {
    Regroup(start, done, When(c, [x]));
    if c {
      BinaryFlag(x);
      bw.U(x, 1);
    } else {
      Regroup(done, [], []);
    }
  }

  method WriteHead(bw: BitWriter, sps: Sps, pps: Pps, ppsId: nat, want: Wanted)
    requires bw.bits == []
    modifies bw
    ensures bw.bits == HeadBits(sps, pps, ppsId, want)
  {
    hide Binary, ExpGolomb, When;
    Regroup([AsBit(want.first)], [], []);
    BinaryFlag(AsBit(want.first));
    bw.U(AsBit(want.first), 1);
    bw.Ue(ppsId);
    ghost var p2 := bw.bits;
    assert p2 == [AsBit(want.first)] + ExpGolomb(ppsId);
    if !want.first {
      PutFlag(bw, pps.dependentSlices, 0, p2, []);
      bw.U(want.address, sps.addrBits);
      Present(Binary(want.address, sps.addrBits));
    } else {
      Absent();
      Regroup(p2, [], []);
    }
    ghost var p4 := p2 + When(!want.first && pps.dependentSlices, [0])
      + When(!want.first, Binary(want.address, sps.addrBits));
    assert bw.bits == p4;
    var i := 0;
    EmptyBinary();
    while i < pps.extraBits
      invariant 0 <= i <= pps.extraBits && bw.bits == p4 + Binary(0, i)
    {
      ZeroBinary(i);
      Regroup(p4, Binary(0, i), [0]);
      BinaryFlag(0);
      bw.U(0, 1);
      i := i + 1;
    }
    bw.Ue(1);
    ghost var p6 := bw.bits;
    PutFlag(bw, pps.outputFlag, 1, p6, []);
  }

  lemma Absent()
    ensures forall s: seq<Bit> :: When(false, s) == []
  {
  }

  lemma EmptyBinary()
    ensures Binary(0, 0) == []
  {
  }

  lemma ZeroBinary(n: nat)
    ensures Binary(0, n + 1) == Binary(0, n) + [0]
  {
  }

  method WritePicture(bw: BitWriter, sps: Sps, donor: Slice, want: Wanted)
    requires donor.header.pic.begin <= donor.header.pic.end <= 8 * |donor.rbsp|
    modifies bw
    ensures bw.bits == old(bw.bits)
      + PictureBits(sps, PocLsb(sps, donor.header.pic, want), DonorBlock(donor), donor.header.pic.tmvp)
  {
    hide Binary, When, Unpacked;
    var pic := donor.header.pic;
    PowPositive(sps.log2MaxPocLsb);
    var poc := if want.poc.Some? then want.poc.value % Pow2(sps.log2MaxPocLsb) else pic.poc;
    bw.U(poc, sps.log2MaxPocLsb);
    bw.CopyBits(donor.rbsp, pic.begin, pic.end);
    ghost var p1 := Binary(poc, sps.log2MaxPocLsb);
    Regroup(old(bw.bits), p1, DonorBlock(donor));
    PutFlag(bw, sps.temporalMvp, AsBit(pic.tmvp), p1 + DonorBlock(donor), old(bw.bits));
  }

  method WriteLists(bw: BitWriter, pps: Pps, donor: Header)
    modifies bw
    ensures bw.bits == old(bw.bits) + ListBits(pps, donor)
  {
    hide ExpGolomb, When, Binary;
    ghost var start := bw.bits;
    var n := if donor.pic.tmvp then if donor.lists.refsL0 > 1 then donor.lists.refsL0 else 1 else 1;
    if pps.refsL0 != n {
      BinaryFlag(1);
      bw.U(1, 1);
      bw.Ue(n - 1);
      Regroup(start, [1], ExpGolomb(n - 1));
    } else {
      BinaryFlag(0);
      bw.U(0, 1);
    }
    ghost var p1 := LengthBits(pps, n);
    PutFlag(bw, pps.listsModification && donor.pic.refs > 1, 0, p1, start);
    ghost var p2 := p1 + When(pps.listsModification && donor.pic.refs > 1, [0]);
    Regroup(start + p2, [], []);
    PutFlag(bw, pps.cabacInit, 0, [], start + p2);
    Regroup([], When(pps.cabacInit, [0]), []);
    ghost var c1 := When(pps.cabacInit, [0]);
    if donor.pic.tmvp {
      if n > 1 {
        bw.Ue(donor.lists.collocated);
        Present(ExpGolomb(donor.lists.collocated));
      }
    }
    Absent();
    Regroup(start + p2, c1, When(Indexed(donor), ExpGolomb(donor.lists.collocated)));
    Regroup(c1, [], []);
    assert bw.bits == start + p2 + CollocatedBits(pps, donor);
    bw.Ue(4);
    Regroup(start, p2, CollocatedBits(pps, donor));
    Regroup(start, p2 + CollocatedBits(pps, donor), ExpGolomb(4));
  }

  /** Entry point offsets: their number, width and values less one. */
  method WriteEntries(bw: BitWriter, entries: seq<nat>)
    requires Positive(entries)
    modifies bw
    ensures bw.bits == old(bw.bits) + EntryBits(entries)
  {
    hide ExpGolomb, Binary, Pow2;
    ghost var start := bw.bits;
    bw.Ue(|entries|);
    ghost var count := bw.bits;
    if |entries| != 0 {
      var longest := 1;
      var i := 0;
      while i < |entries|
        invariant 0 <= i <= |entries| && longest == MaxOffset(entries[..i]) && bw.bits == count
      {
        assert entries[..i + 1][..i] == entries[..i];
        longest := if entries[i] > longest then entries[i] else longest;
        i := i + 1;
      }
      assert entries[..i] == entries;
      var width := 1;
      while Pow2(width) < longest
        invariant width >= 1 && BitsFrom(width, longest) == OffsetWidth(entries) && bw.bits == count
        decreases longest - Pow2(width)
      {
        PowPositive(width);
        PowStep(width);
        width := width + 1;
      }
      bw.Ue(width - 1);
      ghost var header := bw.bits;
      i := 0;
      while i < |entries|
        invariant 0 <= i <= |entries| && bw.bits == header + Offsets(entries[..i], width)
      {
        assert entries[..i + 1][..i] == entries[..i];
        bw.U(entries[i] - 1, width);
        Regroup(header, Offsets(entries[..i], width), Binary(entries[i] - 1, width));
        i := i + 1;
      }
      assert entries[..i] == entries;
      Regroup(count, ExpGolomb(width - 1), Offsets(entries, width));
      Regroup(start, ExpGolomb(|entries|), ExpGolomb(width - 1) + Offsets(entries, width));
    } else {
      Regroup(ExpGolomb(|entries|), [], []);
    }
  }

  method WriteTail(bw: BitWriter, pps: Pps, entries: seq<nat>)
    requires Positive(entries)
    modifies bw
    ensures bw.bits == old(bw.bits) + TailBits(pps, entries)
  {
    hide ExpGolomb, SignedGolomb, When, Binary, EntryBits;
    Absent();
    ghost var start := bw.bits;
    Regroup(start, [], []);
    ghost var chroma := SignedGolomb(0) + SignedGolomb(0);
    if pps.chromaQpOffsets {
      bw.Se(0);
      bw.Se(0);
      Regroup(start, SignedGolomb(0), SignedGolomb(0));
      Present(chroma);
    }
    ghost var p1 := When(pps.chromaQpOffsets, chroma);
    assert bw.bits == start + p1;
    var off := pps.deblockingDisabled;
    if pps.deblockingOverride {
      BinaryFlag(1);
      bw.U(1, 1);
      bw.U(1, 1);
      off := true;
      Present([1, 1]);
      Regroup(start + p1, [1], [1]);
      Regroup(start, p1, [1, 1]);
    }
    ghost var p2 := p1 + When(pps.deblockingOverride, [1, 1]);
    Regroup(p1, [], []);
    assert bw.bits == start + p2;
    PutFlag(bw, pps.loopFilterAcross && !off, 0, p2, start);
    ghost var p3 := p2 + When(pps.loopFilterAcross && !off, [0]);
    if pps.wpp {
      WriteEntries(bw, entries);
      Present(EntryBits(entries));
      Regroup(start, p3, EntryBits(entries));
    }
    ghost var p4 := p3 + When(pps.wpp, EntryBits(entries));
    Regroup(p3, [], []);
    assert bw.bits == start + p4;
    if pps.headerExtension {
      bw.Ue(0);
      Present(ExpGolomb(0));
      Regroup(start, p4, ExpGolomb(0));
    }
    Regroup(p4, [], []);
  }

  method WriteConcealHeader(bw: BitWriter, sps: Sps, pps: Pps, donor: Slice, want: Wanted, entries: seq<nat>)
    requires bw.bits == [] && Positive(entries)
    requires donor.header.pic.begin <= donor.header.pic.end <= 8 * |donor.rbsp|
    modifies bw
    ensures bw.bits == HeaderBits(sps, pps, donor, want, entries)
  {
    hide HeadBits, PictureBits, ListBits, SignedGolomb, When, Binary, TailBits, Aligned;
    WriteHead(bw, sps, pps, donor.ppsId, want);
    WritePicture(bw, sps, donor, want);
    ghost var p2 := bw.bits;
    if sps.sao {
      BinaryFlag(0);
      bw.U(0, 1);
      bw.U(0, 1);
      Regroup(p2, [0], [0]);
      Present([0, 0]);
    } else {
      Absent();
      Regroup(p2, [], []);
    }
    assert bw.bits == p2 + When(sps.sao, [0, 0]);
    WriteLists(bw, pps, donor.header);
    bw.Se(donor.header.qpDelta);
    WriteTail(bw, pps, entries);
    bw.AlignHeader();
  }
}
