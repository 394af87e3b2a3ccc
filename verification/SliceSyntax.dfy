/** Slice segment header syntax: parsing steps over a bit string, and how they move with the bits. */
module SliceSyntax {
  import opened Bytes
  import opened Bits

  /** A value and the position after it. */
  datatype Step<+T> = Step(v: T, pos: nat)

  datatype Outcome<+T> = Done(value: T) | Refused {
    predicate IsFailure() {
      Refused?
    }

    function PropagateFailure<U>(): Outcome<U>
      requires Refused?
    {
      Refused
    }

    function Extract(): T
      requires Done?
    {
      value
    }
  }

  /** What the slice header needs of a sequence parameter set. */
  datatype Sps = Sps(
    width: nat, height: nat, log2MaxPocLsb: nat, log2MinCb: nat, log2Ctb: nat,
    sao: bool, temporalMvp: bool, longTerm: bool, numLongTerm: nat, numShortTerm: nat,
    deltas: seq<U16>, used: seq<U16>, longTermUsed: seq<bool>, widthCtbs: nat, sizeCtbs: nat, addrBits: nat)

  /** What the slice header needs of a picture parameter set. */
  datatype Pps = Pps(
    id: nat, dependentSlices: bool, outputFlag: bool, extraBits: nat, cabacInit: bool,
    refsL0: U16, refsL1: U16, initQp: int, chromaQpOffsets: bool, weightedPred: bool, weightedBipred: bool,
    bypass: bool, tiles: bool, wpp: bool, loopFilterAcross: bool, deblockingOverride: bool,
    deblockingDisabled: bool, listsModification: bool, headerExtension: bool)

  // ---- primitive steps -----------------------------------------------------------------

  function TakeU(b: seq<Bit>, pos: nat, n: nat): (r: Outcome<Step<nat>>)
    ensures r.Done? ==> pos <= r.value.pos <= |b|
  {
    if pos + n <= |b| then Done(Step(Value(b[pos..pos + n]), pos + n)) else Refused
  }

  function TakeUe(b: seq<Bit>, pos: nat): (r: Outcome<Step<nat>>)
    ensures r.Done? ==> pos <= r.value.pos <= |b|
  {
    match ReadUe(b, pos)
    case Overrun => Refused
    case Got(v, p) => PowPositive(Zeros(b, pos)); Done(Step(v, p))
  }

  function TakeSe(b: seq<Bit>, pos: nat): (r: Outcome<Step<int>>)
    ensures r.Done? ==> pos <= r.value.pos <= |b|
  {
    match ReadSe(b, pos)
    case Overrun => Refused
    case Got(v, p) => Done(Step(v, p))
  }

  function TakeIf(c: bool, b: seq<Bit>, pos: nat, n: nat): (r: Outcome<Step<nat>>)
    ensures r.Done? ==> pos <= r.value.pos && (pos <= |b| ==> r.value.pos <= |b|)
  {
    if c then TakeU(b, pos, n) else Done(Step(0, pos))
  }

  function TakeUeIf(c: bool, b: seq<Bit>, pos: nat): (r: Outcome<Step<nat>>)
    ensures r.Done? ==> pos <= r.value.pos && (pos <= |b| ==> r.value.pos <= |b|)
  {
    if c then TakeUe(b, pos) else Done(Step(0, pos))
  }

  /** count fields of width bits each, ignored. */
  function SkipMany(b: seq<Bit>, pos: nat, count: nat, width: nat): (r: Outcome<Step<nat>>)
    ensures r.Done? ==> pos <= r.value.pos && (pos <= |b| ==> r.value.pos <= |b|)
    decreases count
  {
    if count == 0 then Done(Step(0, pos))
    else
      var s :- TakeU(b, pos, width);
      SkipMany(b, s.pos, count - 1, width)
  }

  /** Bits that tell n values apart. */
  function BitsFor(n: nat): nat {
    BitsFrom(0, n)
  }

  function BitsFrom(v: nat, n: nat): nat
    decreases n - Pow2(v)
  {
    PowPositive(v);
    if Pow2(v) < n then BitsFrom(v + 1, n) else v
  }

  lemma {:induction false} BitsSuffice(v: nat, n: nat)
    ensures Pow2(BitsFrom(v, n)) >= n && BitsFrom(v, n) >= v
    ensures BitsFrom(v, n) > v ==> Pow2(BitsFrom(v, n) - 1) < n
    decreases n - Pow2(v)
  {
    PowPositive(v);
    if Pow2(v) < n { BitsSuffice(v + 1, n); }
  }

  // ---- reference picture sets ------------------------------------------------------------

  /** Counts modulo 2^16. */
  datatype Counts = Counts(deltas: U16, used: U16)

  function Bump(n: U16, more: nat): U16 {
    (n + more) % 0x1_0000
  }

  /** Entries of an inter-predicted set: a used flag, and a delta flag when it is clear. */
  function InterEntries(b: seq<Bit>, pos: nat, n: nat, acc: Counts): (r: Outcome<Step<Counts>>)
    ensures r.Done? ==> pos <= r.value.pos && (pos <= |b| ==> r.value.pos <= |b|)
    decreases n
  {
    if n == 0 then Done(Step(acc, pos))
    else
      var used :- TakeU(b, pos, 1);
      var delta :- TakeIf(used.v == 0, b, used.pos, 1);
      var counted := if used.v != 0 || delta.v != 0 then 1 else 0;
      InterEntries(b, delta.pos, n - 1, Counts(Bump(acc.deltas, counted), Bump(acc.used, used.v)))
  }

  /** Entries of an explicit set: a delta and a used flag. */
  function ExplicitEntries(b: seq<Bit>, pos: nat, n: nat, used: U16): (r: Outcome<Step<U16>>)
    ensures r.Done? ==> pos <= r.value.pos && (pos <= |b| ==> r.value.pos <= |b|)
    decreases n
  {
    if n == 0 then Done(Step(used, pos))
    else
      var delta :- TakeUe(b, pos);
      var flag :- TakeU(b, delta.pos, 1);
      ExplicitEntries(b, flag.pos, n - 1, Bump(used, flag.v))
  }

  /** A 32-bit sum. */
  function Sum32(x: nat, y: nat): nat {
    (x + y) % 0x1_0000_0000
  }

  /** st_ref_pic_set(idx), with numSets sets before it. */
  function ShortTermSet(b: seq<Bit>, pos: nat, idx: nat, numSets: nat, deltas: seq<U16>): (r: Outcome<Step<Counts>>)
    ensures r.Done? ==> pos <= r.value.pos && (pos <= |b| ==> r.value.pos <= |b|)
  {
    var inter :- TakeIf(idx != 0, b, pos, 1);
    if inter.v != 0 then
      var back :- TakeUeIf(idx == numSets, b, inter.pos);
      if back.v >= idx || idx - 1 - back.v >= |deltas| then Refused
      else
        var sign :- TakeU(b, back.pos, 1);
        var magnitude :- TakeUe(b, sign.pos);
        InterEntries(b, magnitude.pos, deltas[idx - 1 - back.v] as int + 1, Counts(0, 0))
    else
      var negative :- TakeUe(b, inter.pos);
      var positive :- TakeUe(b, negative.pos);
      var n := Sum32(negative.v, positive.v);
      if n > 16 then Refused
      else
        var used :- ExplicitEntries(b, positive.pos, n, 0);
        Done(Step(Counts(n, used.v), used.pos))
  }

  /** The short-term set of a slice: spelled out, or chosen from the sequence's. */
  function ShortTermRefs(b: seq<Bit>, pos: nat, sps: Sps): (r: Outcome<Step<U16>>)
    ensures r.Done? ==> pos <= r.value.pos && (pos <= |b| ==> r.value.pos <= |b|)
  {
    var chosen :- TakeU(b, pos, 1);
    if chosen.v == 0 then
      var s :- ShortTermSet(b, chosen.pos, sps.numShortTerm, sps.numShortTerm, sps.deltas);
      Done(Step(s.v.used, s.pos))
    else
      var idx :- TakeIf(sps.numShortTerm > 1, b, chosen.pos, BitsFor(sps.numShortTerm));
      if idx.v >= |sps.used| then Refused else Done(Step(sps.used[idx.v], idx.pos))
  }

  /** One long-term picture: whether it is used. */
  function LongTermEntry(b: seq<Bit>, pos: nat, fromSps: bool, sps: Sps): (r: Outcome<Step<bool>>)
    ensures r.Done? ==> pos <= r.value.pos && (pos <= |b| ==> r.value.pos <= |b|)
  {
    if fromSps then
      var idx :- TakeIf(sps.numLongTerm > 1, b, pos, BitsFor(sps.numLongTerm));
      Done(Step(idx.v < |sps.longTermUsed| && sps.longTermUsed[idx.v], idx.pos))
    else
      var lsb :- TakeU(b, pos, sps.log2MaxPocLsb);
      var used :- TakeU(b, lsb.pos, 1);
      Done(Step(used.v != 0, used.pos))
  }

  /** Long-term pictures i to total - 1. */
  function LongTermEntries(b: seq<Bit>, pos: nat, i: nat, fromSps: nat, total: nat, sps: Sps, used: nat)
      : (r: Outcome<Step<nat>>)
    ensures r.Done? ==> pos <= r.value.pos && (pos <= |b| ==> r.value.pos <= |b|)
    decreases total - i
  {
    if i >= total then Done(Step(used, pos))
    else
      var entry :- LongTermEntry(b, pos, i < fromSps, sps);
      var msb :- TakeU(b, entry.pos, 1);
      var cycle :- TakeUeIf(msb.v != 0, b, msb.pos);
      LongTermEntries(b, cycle.pos, i + 1, fromSps, total, sps, used + if entry.v then 1 else 0)
  }

  function LongTermRefs(b: seq<Bit>, pos: nat, sps: Sps): (r: Outcome<Step<nat>>)
    ensures r.Done? ==> pos <= r.value.pos && (pos <= |b| ==> r.value.pos <= |b|)
  {
    if !sps.longTerm then Done(Step(0, pos))
    else
      var fromSps :- TakeUeIf(sps.numLongTerm > 0, b, pos);
      var own :- TakeUe(b, fromSps.pos);
      var total := Sum32(fromSps.v, own.v);
      if total > 32 then Refused else LongTermEntries(b, own.pos, 0, fromSps.v, total, sps, 0)
  }

  /** The block that must agree across the slices of a picture; its value is the number of used references. */
  function References(b: seq<Bit>, pos: nat, sps: Sps): (r: Outcome<Step<U16>>)
    ensures r.Done? ==> pos <= r.value.pos && (pos <= |b| ==> r.value.pos <= |b|)
  {
    var short :- ShortTermRefs(b, pos, sps);
    var long :- LongTermRefs(b, short.pos, sps);
    Done(Step(Bump(short.v, long.v), long.pos))
  }

  // ---- the header ------------------------------------------------------------------------

  predicate IsIrap(nalType: nat) {
    16 <= nalType <= 23
  }

  predicate IsIdr(nalType: nat) {
    nalType == 19 || nalType == 20
  }

  datatype Head = Head(first: bool, address: nat, kind: nat)

  /** Up to pic_output_flag. */
  function ParseHead(b: seq<Bit>, nalType: nat, sps: Sps, pps: Pps): (r: Outcome<Step<Head>>)
    ensures r.Done? ==> r.value.pos <= |b| && r.value.v.kind <= 2
  {
    var first :- TakeU(b, 0, 1);
    var prior :- TakeIf(IsIrap(nalType), b, first.pos, 1);
    var id :- TakeUe(b, prior.pos);
    if id.v != pps.id then Refused
    else
      var dependent :- TakeIf(first.v == 0 && pps.dependentSlices, b, id.pos, 1);
      var address :- TakeIf(first.v == 0, b, dependent.pos, sps.addrBits);
      if dependent.v != 0 then Refused
      else
        var extra :- SkipMany(b, address.pos, pps.extraBits, 1);
        var kind :- TakeUe(b, extra.pos);
        if kind.v % 256 > 2 then Refused
        else
          var output :- TakeIf(pps.outputFlag, b, kind.pos, 1);
          Done(Step(Head(first.v != 0, address.v, kind.v % 256), output.pos))
  }

  /** The picture's order count, reference block [begin, end), used references and motion vector prediction. */
  datatype Picture = Picture(poc: nat, hasPoc: bool, begin: nat, end: nat, refs: U16, tmvp: bool)

  function ParsePicture(b: seq<Bit>, pos: nat, nalType: nat, sps: Sps): (r: Outcome<Step<Picture>>)
    ensures r.Done? ==> pos <= r.value.pos && (pos <= |b| ==> r.value.pos <= |b|)
  {
    if IsIdr(nalType) then Done(Step(Picture(0, false, 0, 0, 0, false), pos))
    else
      var poc :- TakeU(b, pos, sps.log2MaxPocLsb);
      var refs :- References(b, poc.pos, sps);
      var tmvp :- TakeIf(sps.temporalMvp, b, refs.pos, 1);
      Done(Step(Picture(poc.v, true, poc.pos, refs.pos, refs.v, tmvp.v != 0), tmvp.pos))
  }

  const KIND_B := 0
  const KIND_P := 1
  const KIND_I := 2

  /** Lengths of the two reference lists. */
  datatype Lengths = Lengths(l0: U16, l1: U16)

  function ParseLengths(b: seq<Bit>, pos: nat, kind: nat, pps: Pps): (r: Outcome<Step<Lengths>>)
    ensures r.Done? ==> pos <= r.value.pos && (pos <= |b| ==> r.value.pos <= |b|)
    ensures r.Done? ==> r.value.v.l0 <= 16 && r.value.v.l1 <= 16
  {
    var own :- TakeU(b, pos, 1);
    var l0 :- TakeUeIf(own.v != 0, b, own.pos);
    var l1 :- TakeUeIf(own.v != 0 && kind == KIND_B, b, l0.pos);
    var n0 := if own.v != 0 then Bump(1, l0.v) else pps.refsL0;
    var n1 := if own.v != 0 && kind == KIND_B then Bump(1, l1.v) else pps.refsL1;
    if n0 > 16 || n1 > 16 then Refused else Done(Step(Lengths(n0, n1), l1.pos))
  }

  /** ref_pic_lists_modification(), skipped. */
  function SkipModification(b: seq<Bit>, pos: nat, kind: nat, n: Lengths, refs: U16): (r: Outcome<Step<nat>>)
    ensures r.Done? ==> pos <= r.value.pos && (pos <= |b| ==> r.value.pos <= |b|)
  {
    var width := BitsFor(refs);
    var m0 :- TakeU(b, pos, 1);
    var e0 :- SkipMany(b, m0.pos, if m0.v != 0 then n.l0 else 0, width);
    var m1 :- TakeIf(kind == KIND_B, b, e0.pos, 1);
    SkipMany(b, m1.pos, if m1.v != 0 then n.l1 else 0, width)
  }

  /** collocated_ref_idx, and the flags before it. */
  function ParseCollocated(b: seq<Bit>, pos: nat, kind: nat, tmvp: bool, n: Lengths, pps: Pps): (r: Outcome<Step<U16>>)
    ensures r.Done? ==> pos <= r.value.pos && (pos <= |b| ==> r.value.pos <= |b|)
  {
    var mvd :- TakeIf(kind == KIND_B, b, pos, 1);
    var cabac :- TakeIf(pps.cabacInit, b, mvd.pos, 1);
    var from :- TakeIf(tmvp && kind == KIND_B, b, cabac.pos, 1);
    var length := if kind == KIND_B && from.v == 0 then n.l1 else n.l0;
    var idx :- TakeUeIf(tmvp && length > 1, b, from.pos);
    Done(Step(idx.v % 0x1_0000, idx.pos))
  }

  /** What follows the picture in a P or B slice: list 0's length and the collocated index. */
  datatype Lists = Lists(refsL0: U16, collocated: U16)

  function ParseLists(b: seq<Bit>, pos: nat, kind: nat, pic: Picture, pps: Pps): (r: Outcome<Step<Lists>>)
    ensures r.Done? ==> pos <= r.value.pos && (pos <= |b| ==> r.value.pos <= |b|)
    ensures r.Done? ==> r.value.v.refsL0 <= 16
  {
    var n :- ParseLengths(b, pos, kind, pps);
    var lists :- if pps.listsModification && pic.refs > 1 then SkipModification(b, n.pos, kind, n.v, pic.refs)
                 else Done(Step(0, n.pos));
    var collocated :- ParseCollocated(b, lists.pos, kind, pic.tmvp, n.v, pps);
    if (pps.weightedPred && kind == KIND_P) || (pps.weightedBipred && kind == KIND_B) then Refused
    else
      var merge :- TakeUe(b, collocated.pos);
      Done(Step(Lists(n.v.l0, collocated.v), merge.pos))
  }

  /** A parsed header. */
  datatype Header = Header(head: Head, pic: Picture, lists: Lists, qpDelta: int)

  function ParseHeader(b: seq<Bit>, nalType: nat, sps: Sps, pps: Pps): (r: Outcome<Step<Header>>)
    ensures r.Done? ==> r.value.pos <= |b|
  {
    var head :- ParseHead(b, nalType, sps, pps);
    var pic :- ParsePicture(b, head.pos, nalType, sps);
    var luma :- TakeIf(sps.sao, b, pic.pos, 1);
    var chroma :- TakeIf(sps.sao, b, luma.pos, 1);
    var lists :- if head.v.kind == KIND_I then Done(Step(Lists(1, 0), chroma.pos))
                 else ParseLists(b, chroma.pos, head.v.kind, pic.v, pps);
    var qp :- TakeSe(b, lists.pos);
    Done(Step(Header(head.v, pic.v, lists.v, qp.v), qp.pos))
  }

  // ---- parsing moves with the bits ---------------------------------------------------------

  /** Bits [lo, hi) of b stand in w, moved by d. */
  ghost predicate Moved(b: seq<Bit>, lo: nat, hi: nat, w: seq<Bit>, d: int) {
    && lo <= hi <= |b| && 0 <= lo + d && hi + d <= |w|
    && forall i :: lo <= i < hi ==> w[i + d] == b[i]
  }

  /** The step s, moved by d. */
  ghost predicate Follows<T>(r: Outcome<Step<T>>, s: Step<T>, d: int) {
    r.Done? && r.value.v == s.v && r.value.pos == s.pos + d
  }

  lemma MovedU(b: seq<Bit>, lo: nat, hi: nat, w: seq<Bit>, d: int, pos: nat, n: nat)
    requires Moved(b, lo, hi, w, d) && lo <= pos && TakeU(b, pos, n).Done? && TakeU(b, pos, n).value.pos <= hi
    ensures Follows(TakeU(w, pos + d, n), TakeU(b, pos, n).value, d)
  {
    assert b[pos..pos + n] == w[pos + d..pos + d + n];
  }

  lemma {:induction false} MovedZeros(b: seq<Bit>, lo: nat, hi: nat, w: seq<Bit>, d: int, pos: nat)
    requires Moved(b, lo, hi, w, d) && lo <= pos && pos + Zeros(b, pos) < hi
    ensures Zeros(w, pos + d) == Zeros(b, pos)
    decreases |b| - pos
  {
    if pos < |b| && b[pos] == 0 { MovedZeros(b, lo, hi, w, d, pos + 1); }
  }

  lemma MovedUe(b: seq<Bit>, lo: nat, hi: nat, w: seq<Bit>, d: int, pos: nat)
    requires Moved(b, lo, hi, w, d) && lo <= pos && TakeUe(b, pos).Done? && TakeUe(b, pos).value.pos <= hi
    ensures Follows(TakeUe(w, pos + d), TakeUe(b, pos).value, d)
  {
    var z := Zeros(b, pos);
    MovedZeros(b, lo, hi, w, d, pos);
    assert b[pos + z + 1..pos + 2 * z + 1] == w[pos + d + z + 1..pos + d + 2 * z + 1];
  }

  lemma MovedSe(b: seq<Bit>, lo: nat, hi: nat, w: seq<Bit>, d: int, pos: nat)
    requires Moved(b, lo, hi, w, d) && lo <= pos && TakeSe(b, pos).Done? && TakeSe(b, pos).value.pos <= hi
    ensures Follows(TakeSe(w, pos + d), TakeSe(b, pos).value, d)
  {
    hide Zeros, Moved, Pow2, Value;
    MovedUe(b, lo, hi, w, d, pos);
  }

  lemma MovedIf(c: bool, b: seq<Bit>, lo: nat, hi: nat, w: seq<Bit>, d: int, pos: nat, n: nat)
    requires Moved(b, lo, hi, w, d) && lo <= pos && TakeIf(c, b, pos, n).Done? && TakeIf(c, b, pos, n).value.pos <= hi
    ensures Follows(TakeIf(c, w, pos + d, n), TakeIf(c, b, pos, n).value, d)
  {
    if c { MovedU(b, lo, hi, w, d, pos, n); }
  }

  lemma MovedUeIf(c: bool, b: seq<Bit>, lo: nat, hi: nat, w: seq<Bit>, d: int, pos: nat)
    requires Moved(b, lo, hi, w, d) && lo <= pos && TakeUeIf(c, b, pos).Done? && TakeUeIf(c, b, pos).value.pos <= hi
    ensures Follows(TakeUeIf(c, w, pos + d), TakeUeIf(c, b, pos).value, d)
  {
    if c { MovedUe(b, lo, hi, w, d, pos); }
  }

  lemma {:induction false} MovedSkip(b: seq<Bit>, lo: nat, hi: nat, w: seq<Bit>, d: int, pos: nat, count: nat,
                                     width: nat)
    requires Moved(b, lo, hi, w, d) && lo <= pos
    requires SkipMany(b, pos, count, width).Done? && SkipMany(b, pos, count, width).value.pos <= hi
    ensures Follows(SkipMany(w, pos + d, count, width), SkipMany(b, pos, count, width).value, d)
    decreases count
  {
    hide TakeU, Moved;
    if count != 0 {
      MovedU(b, lo, hi, w, d, pos, width);
      MovedSkip(b, lo, hi, w, d, TakeU(b, pos, width).value.pos, count - 1, width);
    }
  }

  lemma {:induction false} MovedInter(b: seq<Bit>, lo: nat, hi: nat, w: seq<Bit>, d: int, pos: nat, n: nat, acc: Counts)
    requires Moved(b, lo, hi, w, d) && lo <= pos
    requires InterEntries(b, pos, n, acc).Done? && InterEntries(b, pos, n, acc).value.pos <= hi
    ensures Follows(InterEntries(w, pos + d, n, acc), InterEntries(b, pos, n, acc).value, d)
    decreases n
  {
    hide TakeU, TakeIf, Moved;
    if n != 0 {
      var used := TakeU(b, pos, 1).value;
      var delta := TakeIf(used.v == 0, b, used.pos, 1).value;
      var counted := if used.v != 0 || delta.v != 0 then 1 else 0;
      MovedU(b, lo, hi, w, d, pos, 1);
      MovedIf(used.v == 0, b, lo, hi, w, d, used.pos, 1);
      MovedInter(b, lo, hi, w, d, delta.pos, n - 1, Counts(Bump(acc.deltas, counted), Bump(acc.used, used.v)));
    }
  }

  lemma {:induction false} MovedExplicit(b: seq<Bit>, lo: nat, hi: nat, w: seq<Bit>, d: int, pos: nat, n: nat,
                                         used: U16)
    requires Moved(b, lo, hi, w, d) && lo <= pos
    requires ExplicitEntries(b, pos, n, used).Done? && ExplicitEntries(b, pos, n, used).value.pos <= hi
    ensures Follows(ExplicitEntries(w, pos + d, n, used), ExplicitEntries(b, pos, n, used).value, d)
    decreases n
  {
    hide TakeU, TakeUe, Moved;
    if n != 0 {
      var delta := TakeUe(b, pos).value;
      var flag := TakeU(b, delta.pos, 1).value;
      MovedUe(b, lo, hi, w, d, pos);
      MovedU(b, lo, hi, w, d, delta.pos, 1);
      MovedExplicit(b, lo, hi, w, d, flag.pos, n - 1, Bump(used, flag.v));
    }
  }

  lemma MovedShortTermSet(b: seq<Bit>, lo: nat, hi: nat, w: seq<Bit>, d: int, pos: nat, idx: nat, sets: nat,
                          deltas: seq<U16>)
    requires Moved(b, lo, hi, w, d) && lo <= pos
    requires ShortTermSet(b, pos, idx, sets, deltas).Done? && ShortTermSet(b, pos, idx, sets, deltas).value.pos <= hi
    ensures Follows(ShortTermSet(w, pos + d, idx, sets, deltas), ShortTermSet(b, pos, idx, sets, deltas).value, d)
  {
    hide TakeU, TakeUe, TakeIf, TakeUeIf, Moved, InterEntries, ExplicitEntries, Sum32;
    var inter := TakeIf(idx != 0, b, pos, 1).value;
    if inter.v != 0 {
      var back := TakeUeIf(idx == sets, b, inter.pos).value;
      var sign := TakeU(b, back.pos, 1).value;
      var magnitude := TakeUe(b, sign.pos).value;
      MovedInter(b, lo, hi, w, d, magnitude.pos, deltas[idx - 1 - back.v] as int + 1, Counts(0, 0));
      MovedUe(b, lo, hi, w, d, sign.pos);
      MovedU(b, lo, hi, w, d, back.pos, 1);
      MovedUeIf(idx == sets, b, lo, hi, w, d, inter.pos);
    } else {
      var negative := TakeUe(b, inter.pos).value;
      var positive := TakeUe(b, negative.pos).value;
      MovedExplicit(b, lo, hi, w, d, positive.pos, Sum32(negative.v, positive.v), 0);
      MovedUe(b, lo, hi, w, d, negative.pos);
      MovedUe(b, lo, hi, w, d, inter.pos);
    }
    MovedIf(idx != 0, b, lo, hi, w, d, pos, 1);
  }

  lemma MovedShortTermRefs(b: seq<Bit>, lo: nat, hi: nat, w: seq<Bit>, d: int, pos: nat, sps: Sps)
    requires Moved(b, lo, hi, w, d) && lo <= pos
    requires ShortTermRefs(b, pos, sps).Done? && ShortTermRefs(b, pos, sps).value.pos <= hi
    ensures Follows(ShortTermRefs(w, pos + d, sps), ShortTermRefs(b, pos, sps).value, d)
  {
    hide TakeU, TakeIf, Moved, ShortTermSet, BitsFor;
    var chosen := TakeU(b, pos, 1).value;
    if chosen.v == 0 {
      MovedShortTermSet(b, lo, hi, w, d, chosen.pos, sps.numShortTerm, sps.numShortTerm, sps.deltas);
    } else {
      MovedIf(sps.numShortTerm > 1, b, lo, hi, w, d, chosen.pos, BitsFor(sps.numShortTerm));
    }
    MovedU(b, lo, hi, w, d, pos, 1);
  }

  lemma MovedLongTermEntry(b: seq<Bit>, lo: nat, hi: nat, w: seq<Bit>, d: int, pos: nat, fromSps: bool, sps: Sps)
    requires Moved(b, lo, hi, w, d) && lo <= pos
    requires LongTermEntry(b, pos, fromSps, sps).Done? && LongTermEntry(b, pos, fromSps, sps).value.pos <= hi
    ensures Follows(LongTermEntry(w, pos + d, fromSps, sps), LongTermEntry(b, pos, fromSps, sps).value, d)
  {
    hide TakeU, TakeIf, Moved, BitsFor;
    if fromSps {
      MovedIf(sps.numLongTerm > 1, b, lo, hi, w, d, pos, BitsFor(sps.numLongTerm));
    } else {
      var lsb := TakeU(b, pos, sps.log2MaxPocLsb).value;
      MovedU(b, lo, hi, w, d, lsb.pos, 1);
      MovedU(b, lo, hi, w, d, pos, sps.log2MaxPocLsb);
    }
  }

  lemma {:induction false} MovedLongTermEntries(b: seq<Bit>, lo: nat, hi: nat, w: seq<Bit>, d: int, pos: nat,
                                                i: nat, fromSps: nat, total: nat, sps: Sps, used: nat)
    requires Moved(b, lo, hi, w, d) && lo <= pos
    requires LongTermEntries(b, pos, i, fromSps, total, sps, used).Done?
    requires LongTermEntries(b, pos, i, fromSps, total, sps, used).value.pos <= hi
    ensures Follows(LongTermEntries(w, pos + d, i, fromSps, total, sps, used),
                    LongTermEntries(b, pos, i, fromSps, total, sps, used).value, d)
    decreases total - i
  {
    hide TakeU, TakeUeIf, Moved, LongTermEntry;
    if i < total {
      var entry := LongTermEntry(b, pos, i < fromSps, sps).value;
      var msb := TakeU(b, entry.pos, 1).value;
      var cycle := TakeUeIf(msb.v != 0, b, msb.pos).value;
      MovedLongTermEntries(b, lo, hi, w, d, cycle.pos, i + 1, fromSps, total, sps, used + if entry.v then 1 else 0);
      MovedUeIf(msb.v != 0, b, lo, hi, w, d, msb.pos);
      MovedU(b, lo, hi, w, d, entry.pos, 1);
      MovedLongTermEntry(b, lo, hi, w, d, pos, i < fromSps, sps);
    }
  }

  lemma MovedLongTermRefs(b: seq<Bit>, lo: nat, hi: nat, w: seq<Bit>, d: int, pos: nat, sps: Sps)
    requires Moved(b, lo, hi, w, d) && lo <= pos
    requires LongTermRefs(b, pos, sps).Done? && LongTermRefs(b, pos, sps).value.pos <= hi
    ensures Follows(LongTermRefs(w, pos + d, sps), LongTermRefs(b, pos, sps).value, d)
  {
    hide TakeUe, TakeUeIf, Moved, LongTermEntries, Sum32;
    if sps.longTerm {
      var fromSps := TakeUeIf(sps.numLongTerm > 0, b, pos).value;
      var own := TakeUe(b, fromSps.pos).value;
      MovedLongTermEntries(b, lo, hi, w, d, own.pos, 0, fromSps.v, Sum32(fromSps.v, own.v), sps, 0);
      MovedUe(b, lo, hi, w, d, fromSps.pos);
      MovedUeIf(sps.numLongTerm > 0, b, lo, hi, w, d, pos);
    }
  }

  /** The reference block parses the same wherever its own bits stand. */
  lemma MovedReferences(b: seq<Bit>, lo: nat, hi: nat, w: seq<Bit>, d: int, pos: nat, sps: Sps)
    requires Moved(b, lo, hi, w, d) && lo <= pos
    requires References(b, pos, sps).Done? && References(b, pos, sps).value.pos <= hi
    ensures Follows(References(w, pos + d, sps), References(b, pos, sps).value, d)
  {
    hide Moved, ShortTermRefs, LongTermRefs;
    var short := ShortTermRefs(b, pos, sps).value;
    MovedLongTermRefs(b, lo, hi, w, d, short.pos, sps);
    MovedShortTermRefs(b, lo, hi, w, d, pos, sps);
  }

  // ---- a longer string parses the same ----------------------------------------------------

  lemma KeptHead(b: seq<Bit>, w: seq<Bit>, nalType: nat, sps: Sps, pps: Pps)
    requires Moved(b, 0, |b|, w, 0) && ParseHead(b, nalType, sps, pps).Done?
    ensures ParseHead(w, nalType, sps, pps) == ParseHead(b, nalType, sps, pps)
  {
    hide TakeU, TakeUe, TakeIf, Moved, SkipMany;
    var n := |b|;
    var first := TakeU(b, 0, 1).value;
    var prior := TakeIf(IsIrap(nalType), b, first.pos, 1).value;
    var id := TakeUe(b, prior.pos).value;
    var dependent := TakeIf(first.v == 0 && pps.dependentSlices, b, id.pos, 1).value;
    var address := TakeIf(first.v == 0, b, dependent.pos, sps.addrBits).value;
    var extra := SkipMany(b, address.pos, pps.extraBits, 1).value;
    var kind := TakeUe(b, extra.pos).value;
    MovedU(b, 0, n, w, 0, 0, 1);
    MovedIf(IsIrap(nalType), b, 0, n, w, 0, first.pos, 1);
    MovedUe(b, 0, n, w, 0, prior.pos);
    MovedIf(first.v == 0 && pps.dependentSlices, b, 0, n, w, 0, id.pos, 1);
    MovedIf(first.v == 0, b, 0, n, w, 0, dependent.pos, sps.addrBits);
    MovedSkip(b, 0, n, w, 0, address.pos, pps.extraBits, 1);
    MovedUe(b, 0, n, w, 0, extra.pos);
    MovedIf(pps.outputFlag, b, 0, n, w, 0, kind.pos, 1);
  }

  lemma KeptPicture(b: seq<Bit>, w: seq<Bit>, pos: nat, nalType: nat, sps: Sps)
    requires Moved(b, 0, |b|, w, 0) && pos <= |b| && ParsePicture(b, pos, nalType, sps).Done?
    ensures ParsePicture(w, pos, nalType, sps) == ParsePicture(b, pos, nalType, sps)
  {
    hide TakeU, TakeIf, Moved, References;
    var n := |b|;
    if !IsIdr(nalType) {
      var poc := TakeU(b, pos, sps.log2MaxPocLsb).value;
      var refs := References(b, poc.pos, sps).value;
      MovedU(b, 0, n, w, 0, pos, sps.log2MaxPocLsb);
      MovedReferences(b, 0, n, w, 0, poc.pos, sps);
      MovedIf(sps.temporalMvp, b, 0, n, w, 0, refs.pos, 1);
    }
  }

  lemma KeptLengths(b: seq<Bit>, w: seq<Bit>, pos: nat, kind: nat, pps: Pps)
    requires Moved(b, 0, |b|, w, 0) && pos <= |b| && ParseLengths(b, pos, kind, pps).Done?
    ensures ParseLengths(w, pos, kind, pps) == ParseLengths(b, pos, kind, pps)
  {
    hide TakeU, TakeUeIf, Moved;
    var n := |b|;
    var own := TakeU(b, pos, 1).value;
    var l0 := TakeUeIf(own.v != 0, b, own.pos).value;
    MovedU(b, 0, n, w, 0, pos, 1);
    MovedUeIf(own.v != 0, b, 0, n, w, 0, own.pos);
    MovedUeIf(own.v != 0 && kind == KIND_B, b, 0, n, w, 0, l0.pos);
  }

  lemma KeptModification(b: seq<Bit>, w: seq<Bit>, pos: nat, kind: nat, n: Lengths, refs: U16)
    requires Moved(b, 0, |b|, w, 0) && pos <= |b| && SkipModification(b, pos, kind, n, refs).Done?
    ensures SkipModification(w, pos, kind, n, refs) == SkipModification(b, pos, kind, n, refs)
  {
    hide TakeU, TakeIf, Moved, SkipMany, BitsFor;
    var h := |b|;
    var width := BitsFor(refs);
    var m0 := TakeU(b, pos, 1).value;
    var e0 := SkipMany(b, m0.pos, if m0.v != 0 then n.l0 else 0, width).value;
    var m1 := TakeIf(kind == KIND_B, b, e0.pos, 1).value;
    MovedU(b, 0, h, w, 0, pos, 1);
    MovedSkip(b, 0, h, w, 0, m0.pos, if m0.v != 0 then n.l0 else 0, width);
    MovedIf(kind == KIND_B, b, 0, h, w, 0, e0.pos, 1);
    MovedSkip(b, 0, h, w, 0, m1.pos, if m1.v != 0 then n.l1 else 0, width);
  }

  lemma KeptCollocated(b: seq<Bit>, w: seq<Bit>, pos: nat, kind: nat, tmvp: bool, n: Lengths, pps: Pps)
    requires Moved(b, 0, |b|, w, 0) && pos <= |b| && ParseCollocated(b, pos, kind, tmvp, n, pps).Done?
    ensures ParseCollocated(w, pos, kind, tmvp, n, pps) == ParseCollocated(b, pos, kind, tmvp, n, pps)
  {
    hide TakeIf, TakeUeIf, Moved;
    var h := |b|;
    var mvd := TakeIf(kind == KIND_B, b, pos, 1).value;
    var cabac := TakeIf(pps.cabacInit, b, mvd.pos, 1).value;
    var from := TakeIf(tmvp && kind == KIND_B, b, cabac.pos, 1).value;
    var length := if kind == KIND_B && from.v == 0 then n.l1 else n.l0;
    MovedIf(kind == KIND_B, b, 0, h, w, 0, pos, 1);
    MovedIf(pps.cabacInit, b, 0, h, w, 0, mvd.pos, 1);
    MovedIf(tmvp && kind == KIND_B, b, 0, h, w, 0, cabac.pos, 1);
    MovedUeIf(tmvp && length > 1, b, 0, h, w, 0, from.pos);
  }

  lemma KeptLists(b: seq<Bit>, w: seq<Bit>, pos: nat, kind: nat, pic: Picture, pps: Pps)
    requires Moved(b, 0, |b|, w, 0) && pos <= |b| && ParseLists(b, pos, kind, pic, pps).Done?
    ensures ParseLists(w, pos, kind, pic, pps) == ParseLists(b, pos, kind, pic, pps)
  {
    hide TakeUe, Moved, ParseLengths, SkipModification, ParseCollocated;
    var n := ParseLengths(b, pos, kind, pps).value;
    var modified := pps.listsModification && pic.refs > 1;
    var lists := if modified then SkipModification(b, n.pos, kind, n.v, pic.refs).value else Step(0, n.pos);
    var collocated := ParseCollocated(b, lists.pos, kind, pic.tmvp, n.v, pps).value;
    KeptLengths(b, w, pos, kind, pps);
    if modified { KeptModification(b, w, n.pos, kind, n.v, pic.refs); }
    KeptCollocated(b, w, lists.pos, kind, pic.tmvp, n.v, pps);
    MovedUe(b, 0, |b|, w, 0, collocated.pos);
  }

  /** A header that parses from a prefix parses the same from the whole. */
  lemma KeptHeader(b: seq<Bit>, w: seq<Bit>, nalType: nat, sps: Sps, pps: Pps)
    requires Moved(b, 0, |b|, w, 0) && ParseHeader(b, nalType, sps, pps).Done?
    ensures ParseHeader(w, nalType, sps, pps) == ParseHeader(b, nalType, sps, pps)
  {
    hide TakeSe, TakeIf, Moved, ParseHead, ParsePicture, ParseLists;
    var n := |b|;
    var head := ParseHead(b, nalType, sps, pps).value;
    var pic := ParsePicture(b, head.pos, nalType, sps).value;
    var luma := TakeIf(sps.sao, b, pic.pos, 1).value;
    var chroma := TakeIf(sps.sao, b, luma.pos, 1).value;
    var lists := if head.v.kind == KIND_I then Step(Lists(1, 0), chroma.pos)
                 else ParseLists(b, chroma.pos, head.v.kind, pic.v, pps).value;
    KeptHead(b, w, nalType, sps, pps);
    KeptPicture(b, w, head.pos, nalType, sps);
    MovedIf(sps.sao, b, 0, n, w, 0, pic.pos, 1);
    MovedIf(sps.sao, b, 0, n, w, 0, luma.pos, 1);
    if head.v.kind != KIND_I { KeptLists(b, w, chroma.pos, head.v.kind, pic.v, pps); }
    MovedSe(b, 0, n, w, 0, lists.pos);
  }
}
