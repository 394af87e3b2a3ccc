/** The slice header parser: a sticky-fail reader that accepts exactly what the syntax accepts. */
module SliceParser {
  import opened Bytes
  import opened Bits
  import opened NalUnit
  import opened SliceSyntax

  const HEADER_CAP := 256

  /** A parsed slice: NAL header, PPS, the unescaped header bytes and what they say. */
  datatype Slice = Slice(header0: Byte, header1: Byte, ppsId: nat, rbsp: seq<Byte>, header: Header)

  function NalType(header0: Byte): nat {
    header0 / 2 % 64
  }

  /** The header of a NAL unit, from its first two bytes on. */
  function ParseSlice(nal: seq<Byte>, sps: Sps, pps: Pps): Outcome<Slice> {
    if |nal| < 3 || NalType(nal[0]) > 31 then Refused
    else
      var rbsp := Capped(Unescaped(0, nal[2..]), HEADER_CAP);
      var h :- ParseHeader(Unpacked(rbsp), NalType(nal[0]), sps, pps);
      Done(Slice(nal[0], nal[1], pps.id, rbsp, h.v))
  }

  /** The reader's state after a step: in failure, or refused by a guard, or where the syntax puts it. */
  ghost predicate Matches<T>(r: BitReader, out: Outcome<Step<T>>, ok: bool, v: T)
    reads r
  {
    match out
    case Refused => r.fail || !ok
    case Done(s) => ok && !r.fail && r.pos == s.pos && v == s.v
  }

  method SkipFields(r: BitReader, count: nat, width: nat)
    requires r.Valid()
    modifies r
    ensures r.Valid() && (old(r.fail) ==> r.fail)
    ensures !old(r.fail) ==> Matches(r, SkipMany(Unpacked(r.d), old(r.pos), count, width), true, 0)
  {
    hide Unpacked, Value;
    ghost var b := Unpacked(r.d);
    var i := 0;
    while i < count
      invariant 0 <= i <= count && r.Valid() && (old(r.fail) ==> r.fail)
      invariant !old(r.fail) && !r.fail ==>
          SkipMany(b, old(r.pos), count, width) == SkipMany(b, r.pos, count - i, width)
      invariant !old(r.fail) && r.fail ==> SkipMany(b, old(r.pos), count, width).Refused?
    {
      var _ := r.U(width);
      i := i + 1;
    }
  }

  method ParseInterEntries(r: BitReader, n: nat) returns (c: Counts)
    requires r.Valid()
    modifies r
    ensures r.Valid() && (old(r.fail) ==> r.fail)
    ensures !old(r.fail) ==> Matches(r, InterEntries(Unpacked(r.d), old(r.pos), n, Counts(0, 0)), true, c)
  {
    hide Unpacked, Value;
    ghost var b := Unpacked(r.d);
    var deltas: U16, usedCount: U16 := 0, 0;
    var j := 0;
    while j < n
      invariant 0 <= j <= n && r.Valid() && (old(r.fail) ==> r.fail)
      invariant !old(r.fail) && !r.fail ==>
          InterEntries(b, old(r.pos), n, Counts(0, 0)) == InterEntries(b, r.pos, n - j, Counts(deltas, usedCount))
      invariant !old(r.fail) && r.fail ==> InterEntries(b, old(r.pos), n, Counts(0, 0)).Refused?
    {
      var used := r.U(1);
      var useDelta := 1;
      if used == 0 {
        useDelta := r.U(1);
      }
      deltas := Bump(deltas, if used != 0 || useDelta != 0 then 1 else 0);
      usedCount := Bump(usedCount, used);
      j := j + 1;
    }
    c := Counts(deltas, usedCount);
  }

  method ParseExplicitEntries(r: BitReader, n: nat) returns (used: U16)
    requires r.Valid()
    modifies r
    ensures r.Valid() && (old(r.fail) ==> r.fail)
    ensures !old(r.fail) ==> Matches(r, ExplicitEntries(Unpacked(r.d), old(r.pos), n, 0), true, used)
  {
    hide Unpacked, Value, ReadUe;
    ghost var b := Unpacked(r.d);
    used := 0;
    var j := 0;
    while j < n
      invariant 0 <= j <= n && r.Valid() && (old(r.fail) ==> r.fail)
      invariant !old(r.fail) && !r.fail ==>
          ExplicitEntries(b, old(r.pos), n, 0) == ExplicitEntries(b, r.pos, n - j, used)
      invariant !old(r.fail) && r.fail ==> ExplicitEntries(b, old(r.pos), n, 0).Refused?
    {
      var _ := r.Ue();
      var flag := r.U(1);
      used := Bump(used, flag);
      j := j + 1;
    }
  }

  method ParseShortTermSet(r: BitReader, idx: nat, numSets: nat, deltas: seq<U16>) returns (ok: bool, c: Counts)
    requires r.Valid()
    modifies r
    ensures r.Valid() && (old(r.fail) ==> r.fail)
    ensures !old(r.fail) ==> Matches(r, ShortTermSet(Unpacked(r.d), old(r.pos), idx, numSets, deltas), ok, c)
  {
    hide Unpacked, Value, ReadUe, InterEntries, ExplicitEntries;
    c := Counts(0, 0);
    var inter := 0;
    if idx != 0 {
      inter := r.U(1);
    }
    if inter != 0 {
      var refIdx := idx - 1;
      if idx == numSets {
        var back := r.Ue();
        if back >= idx {
          return false, c;
        }
        refIdx := idx - 1 - back;
      }
      if refIdx >= |deltas| {
        return false, c;
      }
      var _ := r.U(1);
      var _ := r.Ue();
      c := ParseInterEntries(r, deltas[refIdx] as int + 1);
    } else {
      var negative := r.Ue();
      var positive := r.Ue();
      var n := Sum32(negative, positive);
      if n > 16 {
        return false, c;
      }
      var used := ParseExplicitEntries(r, n);
      c := Counts(n, used);
    }
    ok := !r.fail;
  }

  /** The bits of an index below n: the loop of the source. */
  method IndexWidth(n: nat) returns (width: nat)
    ensures width == BitsFor(n)
  {
    width := 0;
    while Pow2(width) < n
      invariant BitsFrom(width, n) == BitsFor(n)
      decreases n - Pow2(width)
    {
      PowPositive(width);
      width := width + 1;
    }
  }

  method ParseShortTermRefs(r: BitReader, sps: Sps) returns (ok: bool, used: U16)
    requires r.Valid()
    modifies r
    ensures r.Valid() && (old(r.fail) ==> r.fail)
    ensures !old(r.fail) ==> Matches(r, ShortTermRefs(Unpacked(r.d), old(r.pos), sps), ok, used)
  {
    hide Unpacked, Value, ShortTermSet, BitsFor;
    var chosen := r.U(1);
    if chosen == 0 {
      var c: Counts;
      ok, c := ParseShortTermSet(r, sps.numShortTerm, sps.numShortTerm, sps.deltas);
      used := c.used;
    } else {
      var idx := 0;
      if sps.numShortTerm > 1 {
        var width := IndexWidth(sps.numShortTerm);
        idx := r.U(width);
      }
      if idx >= |sps.used| {
        return false, 0;
      }
      ok, used := true, sps.used[idx];
    }
  }

  method ParseLongTermEntry(r: BitReader, fromSps: bool, sps: Sps) returns (used: bool)
    requires r.Valid()
    modifies r
    ensures r.Valid() && (old(r.fail) ==> r.fail)
    ensures !old(r.fail) ==> Matches(r, LongTermEntry(Unpacked(r.d), old(r.pos), fromSps, sps), true, used)
  {
    hide Unpacked, Value, BitsFor;
    if fromSps {
      var idx := 0;
      if sps.numLongTerm > 1 {
        var width := IndexWidth(sps.numLongTerm);
        idx := r.U(width);
      }
      used := idx < |sps.longTermUsed| && sps.longTermUsed[idx];
    } else {
      var _ := r.U(sps.log2MaxPocLsb);
      var flag := r.U(1);
      used := flag != 0;
    }
  }

  method CountLongTerm(r: BitReader, fromSps: nat, total: nat, sps: Sps) returns (used: nat)
    requires r.Valid()
    modifies r
    ensures r.Valid() && (old(r.fail) ==> r.fail)
    ensures !old(r.fail) ==>
      Matches(r, LongTermEntries(Unpacked(r.d), old(r.pos), 0, fromSps, total, sps, 0), true, used)
  {
    hide Unpacked, Value, ReadUe, LongTermEntry;
    ghost var b := Unpacked(r.d);
    used := 0;
    var i := 0;
    while i < total
      invariant 0 <= i <= total && r.Valid() && (old(r.fail) ==> r.fail)
      invariant !old(r.fail) && !r.fail ==> LongTermEntries(b, old(r.pos), 0, fromSps, total, sps, 0)
                                            == LongTermEntries(b, r.pos, i, fromSps, total, sps, used)
      invariant !old(r.fail) && r.fail ==> LongTermEntries(b, old(r.pos), 0, fromSps, total, sps, 0).Refused?
    {
      var inUse := ParseLongTermEntry(r, i < fromSps, sps);
      used := used + if inUse then 1 else 0;
      var msb := r.U(1);
      if msb != 0 {
        var _ := r.Ue();
      }
      i := i + 1;
    }
  }

  method ParseLongTermRefs(r: BitReader, sps: Sps) returns (ok: bool, used: nat)
    requires r.Valid()
    modifies r
    ensures r.Valid() && (old(r.fail) ==> r.fail)
    ensures !old(r.fail) ==> Matches(r, LongTermRefs(Unpacked(r.d), old(r.pos), sps), ok, used)
  {
    hide Unpacked, Value, ReadUe, LongTermEntries, Sum32;
    ok, used := true, 0;
    if sps.longTerm {
      var fromSps := 0;
      if sps.numLongTerm > 0 {
        fromSps := r.Ue();
      }
      var own := r.Ue();
      var total := Sum32(fromSps, own);
      if total > 32 {
        return false, 0;
      }
      used := CountLongTerm(r, fromSps, total, sps);
    }
  }

  method ParseReferences(r: BitReader, sps: Sps) returns (ok: bool, used: U16)
    requires r.Valid()
    modifies r
    ensures r.Valid() && (old(r.fail) ==> r.fail)
    ensures !old(r.fail) ==> Matches(r, References(Unpacked(r.d), old(r.pos), sps), ok, used)
  {
    hide Unpacked, ShortTermRefs, LongTermRefs;
    ok, used := ParseShortTermRefs(r, sps);
    if !ok {
      return;
    }
    var long: nat;
    ok, long := ParseLongTermRefs(r, sps);
    used := Bump(used, long);
  }

  method ParseHeadFields(r: BitReader, nalType: nat, sps: Sps, pps: Pps) returns (ok: bool, h: Head)
    requires r.Valid() && r.pos == 0 && !r.fail
    modifies r
    ensures r.Valid() && Matches(r, ParseHead(Unpacked(r.d), nalType, sps, pps), ok, h)
  {
    hide Unpacked, Value, ReadUe, SkipMany;
    h := Head(false, 0, 0);
    var first := r.U(1);
    if IsIrap(nalType) {
      var _ := r.U(1);
    }
    var id := r.Ue();
    if id != pps.id {
      return false, h;
    }
    var dependent, address := 0, 0;
    if first == 0 {
      if pps.dependentSlices {
        dependent := r.U(1);
      }
      address := r.U(sps.addrBits);
    }
    if dependent != 0 {
      return false, h;
    }
    SkipFields(r, pps.extraBits, 1);
    var kind := r.Ue();
    kind := kind % 256;
    if kind > 2 {
      return false, h;
    }
    if pps.outputFlag {
      var _ := r.U(1);
    }
    ok, h := true, Head(first != 0, address, kind);
  }

  method ParsePictureFields(r: BitReader, nalType: nat, sps: Sps) returns (ok: bool, pic: Picture)
    requires r.Valid()
    modifies r
    ensures r.Valid() && (old(r.fail) ==> r.fail)
    ensures !old(r.fail) ==> Matches(r, ParsePicture(Unpacked(r.d), old(r.pos), nalType, sps), ok, pic)
  {
    hide Unpacked, Value, References;
    ok, pic := true, Picture(0, false, 0, 0, 0, false);
    if !IsIdr(nalType) {
      var poc := r.U(sps.log2MaxPocLsb);
      var begin := r.pos;
      var refs: U16;
      ok, refs := ParseReferences(r, sps);
      if !ok {
        return;
      }
      var end := r.pos;
      var tmvp := 0;
      if sps.temporalMvp {
        tmvp := r.U(1);
      }
      pic := Picture(poc, true, begin, end, refs, tmvp != 0);
    }
  }

  method ParseListLengths(r: BitReader, kind: nat, pps: Pps) returns (ok: bool, n: Lengths)
    requires r.Valid()
    modifies r
    ensures r.Valid() && (old(r.fail) ==> r.fail)
    ensures !old(r.fail) ==> Matches(r, ParseLengths(Unpacked(r.d), old(r.pos), kind, pps), ok, n)
  {
    hide Unpacked, Value, ReadUe;
    var n0, n1 := pps.refsL0, pps.refsL1;
    var own := r.U(1);
    if own != 0 {
      var l0 := r.Ue();
      n0 := Bump(1, l0);
      if kind == KIND_B {
        var l1 := r.Ue();
        n1 := Bump(1, l1);
      }
    }
    ok, n := n0 <= 16 && n1 <= 16, Lengths(n0, n1);
  }

  method SkipListModification(r: BitReader, kind: nat, n: Lengths, refs: U16)
    requires r.Valid()
    modifies r
    ensures r.Valid() && (old(r.fail) ==> r.fail)
    ensures !old(r.fail) ==> Matches(r, SkipModification(Unpacked(r.d), old(r.pos), kind, n, refs), true, 0)
  {
    hide Unpacked, Value, BitsFor;
    var width := IndexWidth(refs);
    var m0 := r.U(1);
    if m0 != 0 {
      SkipFields(r, n.l0, width);
    }
    var m1 := 0;
    if kind == KIND_B {
      m1 := r.U(1);
    }
    if m1 != 0 {
      SkipFields(r, n.l1, width);
    }
  }

  method ParseCollocatedIndex(r: BitReader, kind: nat, tmvp: bool, n: Lengths, pps: Pps) returns (idx: U16)
    requires r.Valid()
    modifies r
    ensures r.Valid() && (old(r.fail) ==> r.fail)
    ensures !old(r.fail) ==> Matches(r, ParseCollocated(Unpacked(r.d), old(r.pos), kind, tmvp, n, pps), true, idx)
  {
    hide Unpacked, Value, ReadUe;
    idx := 0;
    if kind == KIND_B {
      var _ := r.U(1);
    }
    if pps.cabacInit {
      var _ := r.U(1);
    }
    if tmvp {
      var fromL0 := true;
      if kind == KIND_B {
        var from := r.U(1);
        fromL0 := from != 0;
      }
      if (fromL0 && n.l0 > 1) || (!fromL0 && n.l1 > 1) {
        var v := r.Ue();
        idx := v % 0x1_0000;
      }
    }
  }

  method ParseListFields(r: BitReader, kind: nat, pic: Picture, pps: Pps) returns (ok: bool, lists: Lists)
    requires r.Valid()
    modifies r
    ensures r.Valid() && (old(r.fail) ==> r.fail)
    ensures !old(r.fail) ==> Matches(r, ParseLists(Unpacked(r.d), old(r.pos), kind, pic, pps), ok, lists)
  {
    hide Unpacked, ReadUe, ParseLengths, SkipModification, ParseCollocated;
    lists := Lists(1, 0);
    var n: Lengths;
    ok, n := ParseListLengths(r, kind, pps);
    if !ok {
      return;
    }
    if pps.listsModification && pic.refs > 1 {
      SkipListModification(r, kind, n, pic.refs);
    }
    var collocated := ParseCollocatedIndex(r, kind, pic.tmvp, n, pps);
    if (pps.weightedPred && kind == KIND_P) || (pps.weightedBipred && kind == KIND_B) {
      return false, lists;
    }
    var _ := r.Ue();
    lists := Lists(n.l0, collocated);
  }

  /** The parser: what it returns is what the syntax says of the NAL unit, and it refuses exactly what the syntax refuses. */
  method ParseSliceHeader(nal: seq<Byte>, sps: Sps, pps: Pps) returns (r: Outcome<Slice>)
    ensures r == ParseSlice(nal, sps, pps)
  {
    hide Unpacked, ReadSe, ParseHead, ParsePicture, ParseLists, Unescaped;
    if |nal| < 3 {
      return Refused;
    }
    var nalType := NalType(nal[0]);
    if nalType > 31 {
      return Refused;
    }
    var rbsp := Unescape(nal[2..], HEADER_CAP);
    var reader := new BitReader(rbsp);
    var ok, head := ParseHeadFields(reader, nalType, sps, pps);
    if !ok {
      return Refused;
    }
    var pic: Picture;
    ok, pic := ParsePictureFields(reader, nalType, sps);
    if !ok {
      return Refused;
    }
    if sps.sao {
      var _ := reader.U(1);
      var _ := reader.U(1);
    }
    var lists := Lists(1, 0);
    if head.kind != KIND_I {
      ok, lists := ParseListFields(reader, head.kind, pic, pps);
      if !ok {
        return Refused;
      }
    }
    var qp := reader.Se();
    r := if reader.fail then Refused else Done(Slice(nal[0], nal[1], pps.id, rbsp, Header(head, pic, lists, qp)));
  }
}
