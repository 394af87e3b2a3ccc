/**
 * A decoder of slice data on bits: arithmetic decoding, coding quadtree and context synchronisation, with
 * nothing of the writer's but its output (sections 7.3.8 and 9.3 of ITU-T H.265).
 */
module SliceDecoder {
  import opened Bytes
  import opened Bits
  import opened Cabac
  import opened CodingTree
  import opened CodingUnits
  import opened SlicePlan

  /** Arithmetic decoder and contexts. */
  datatype Engine = Engine(dec: Dec, ctxs: seq<Ctx>)

  datatype Bin = Bin(bin: Bit, next: Engine)

  function NextBin(e: Engine, i: nat, v: seq<Bit>): Option<Bin> {
    if i >= |e.ctxs| || e.dec.range < 256 then None
    else
      var (bin, d) := DecodeBin(e.dec, e.ctxs[i], v);
      Some(Bin(bin, Engine(d, e.ctxs[i := NextCtx(e.ctxs[i], bin)])))
  }

  function NextTerminate(e: Engine, v: seq<Bit>): Option<Bin> {
    if e.dec.range < 256 then None
    else
      var (bin, d) := DecodeTerminate(e.dec, v);
      Some(Bin(bin, Engine(d, e.ctxs)))
  }

  // ---- the coding quadtree on bits ---------------------------------------------------------------

  datatype Progress = Progress(cus: map<Pos, Cu>, e: Engine)

  function ReadUnit(g: Geometry, cus: map<Pos, Cu>, x: nat, y: nat, k: nat, depth: nat, e: Engine, v: seq<Bit>)
      : Option<Progress>
  {
    var skip := NextBin(e, SKIP_CTX + Skipped(cus, Left(x, y)) + Skipped(cus, Above(x, y)), v);
    if skip.None? || skip.value.bin == 0 then None
    else Some(Progress(cus + map p | p in Blocks(g, x, y, k) :: Cu(depth, true), skip.value.next))
  }

  function ReadTree(g: Geometry, cus: map<Pos, Cu>, x: nat, y: nat, k: nat, depth: nat, e: Engine, v: seq<Bit>)
      : Option<Progress>
    decreases k, 5
  {
    if Outside(g, x, y) then Some(Progress(cus, e))
    else if !Inside(g, x, y, k) then ReadQuads(g, cus, x, y, k, depth, e, v, 0)
    else if k == 0 then ReadUnit(g, cus, x, y, k, depth, e, v)
    else
      var split := NextBin(e, Deeper(cus, Left(x, y), depth) + Deeper(cus, Above(x, y), depth), v);
      if split.None? then None
      else if split.value.bin == 1 then ReadQuads(g, cus, x, y, k, depth, split.value.next, v, 0)
      else ReadUnit(g, cus, x, y, k, depth, split.value.next, v)
  }

  function ReadQuads(g: Geometry, cus: map<Pos, Cu>, x: nat, y: nat, k: nat, depth: nat, e: Engine, v: seq<Bit>, j: nat)
      : Option<Progress>
    requires k > 0 && j <= 4
    decreases k, 4 - j
  {
    if j == 4 then Some(Progress(cus, e))
    else
      var h := Pow2(k - 1);
      match ReadTree(g, cus, QuadX(x, h, j), QuadY(y, h, j), k - 1, depth + 1, e, v)
      case None => None
      case Some(p) => ReadQuads(g, p.cus, x, y, k, depth, p.e, v, j + 1)
  }

  // ---- following the coded bins ------------------------------------------------------------------

  /** The engine reads exactly the bins ops, with their contexts, and then the terminating 1. */
  ghost predicate Tracks(e: Engine, ops: seq<Op>, v: seq<Bit>) {
    Usable(ops, e.ctxs) && DecodeAll(e.dec, e.ctxs, ops, v).bins == Bins(ops)
  }

  lemma TracksBin(e: Engine, ops: seq<Op>, v: seq<Bit>)
    requires Tracks(e, ops, v) && ops != [] && ops[0].Code?
    ensures var n := NextBin(e, ops[0].ctx, v);
      && n.Some? && n.value.bin == ops[0].bin && Tracks(n.value.next, ops[1..], v)
      && n.value.next.ctxs == CtxsAfter(e.ctxs, ops[..1])
  {
    hide DecodeBin, DecodeTerminate;
    assert e.dec.range >= 256;
    var (bin, d) := DecodeBin(e.dec, e.ctxs[ops[0].ctx], v);
    var ctxs := e.ctxs[ops[0].ctx := NextCtx(e.ctxs[ops[0].ctx], bin)];
    var rest := DecodeAll(d, ctxs, ops[1..], v);
    assert ([bin] + rest.bins)[0] == bin && ([bin] + rest.bins)[1..] == rest.bins;
    assert ([ops[0].bin] + Bins(ops[1..]))[0] == ops[0].bin && ([ops[0].bin] + Bins(ops[1..]))[1..] == Bins(ops[1..]);
    OneStep(e.ctxs, ops);
  }

  lemma OneStep(ctxs: seq<Ctx>, ops: seq<Op>)
    requires ops != []
    ensures CtxsAfter(ctxs, ops[..1]) == if ops[0].Code? && ops[0].ctx < |ctxs|
      then ctxs[ops[0].ctx := NextCtx(ctxs[ops[0].ctx], ops[0].bin)] else ctxs
  {
    assert ops[..1][1..] == [];
  }

  lemma TracksContinue(e: Engine, ops: seq<Op>, v: seq<Bit>)
    requires Tracks(e, ops, v) && ops != [] && ops[0].Continue?
    ensures var n := NextTerminate(e, v);
      n.Some? && n.value.bin == 0 && Tracks(n.value.next, ops[1..], v) && n.value.next.ctxs == e.ctxs
  {
    hide DecodeBin, DecodeTerminate;
    assert e.dec.range >= 256;
    var (bin, d) := DecodeTerminate(e.dec, v);
    var rest := DecodeAll(d, e.ctxs, ops[1..], v);
    assert ([bin] + rest.bins)[0] == bin && ([bin] + rest.bins)[1..] == rest.bins;
    assert ([0] + Bins(ops[1..]))[0] == 0 && ([0] + Bins(ops[1..]))[1..] == Bins(ops[1..]);
  }

  lemma TracksEnd(e: Engine, v: seq<Bit>)
    requires Tracks(e, [], v)
    ensures NextTerminate(e, v).Some? && NextTerminate(e, v).value.bin == 1
  {
    hide DecodeTerminate;
  }

  lemma {:induction false} CtxsAppend(ctxs: seq<Ctx>, a: seq<Op>, b: seq<Op>)
    ensures CtxsAfter(ctxs, a + b) == CtxsAfter(CtxsAfter(ctxs, a), b)
    decreases |a|
  {
    if a == [] {
      assert a + b == b;
    } else {
      assert (a + b)[1..] == a[1..] + b;
      if a[0].Code? && a[0].ctx < |ctxs| {
        CtxsAppend(ctxs[a[0].ctx := NextCtx(ctxs[a[0].ctx], a[0].bin)], a[1..], b);
      } else {
        CtxsAppend(ctxs, a[1..], b);
      }
    }
  }

  /** The engine e followed the first bins of ops and stands before rest. */
  ghost predicate Followed(e: Engine, ops: seq<Op>, next: Engine, rest: seq<Op>, v: seq<Bit>) {
    && |rest| <= |ops| && ops[|ops| - |rest|..] == rest && Tracks(next, rest, v)
    && next.ctxs == CtxsAfter(e.ctxs, ops[..|ops| - |rest|])
  }

  lemma FollowedNothing(e: Engine, ops: seq<Op>, v: seq<Bit>)
    requires Tracks(e, ops, v)
    ensures Followed(e, ops, e, ops, v)
  {
    hide Tracks;
    assert ops[..0] == [];
  }

  lemma FollowedBin(e: Engine, ops: seq<Op>, v: seq<Bit>)
    requires Tracks(e, ops, v) && ops != [] && ops[0].Code?
    ensures var n := NextBin(e, ops[0].ctx, v);
      n.Some? && n.value.bin == ops[0].bin && Followed(e, ops, n.value.next, ops[1..], v)
  {
    TracksBin(e, ops, v);
    hide Tracks;
    assert |ops| - |ops[1..]| == 1;
  }

  lemma FollowedOn(e: Engine, ops: seq<Op>, mid: Engine, middle: seq<Op>, last: Engine, rest: seq<Op>, v: seq<Bit>)
    requires Followed(e, ops, mid, middle, v) && Followed(mid, middle, last, rest, v)
    ensures Followed(e, ops, last, rest, v)
  {
    hide Tracks;
    var a, b := ops[..|ops| - |middle|], middle[..|middle| - |rest|];
    CtxsAppend(e.ctxs, a, b);
    assert ops == a + middle && middle == b + rest;
    assert ops[..|ops| - |rest|] == a + b;
  }

  /** On bits that carry the bins, the decoder does what it does on the bins. */
  lemma {:induction false} TreeRead(g: Geometry, cus: map<Pos, Cu>, x: nat, y: nat, k: nat, depth: nat, e: Engine,
                                    ops: seq<Op>, v: seq<Bit>)
    requires Tracks(e, ops, v) && DecodeTree(g, cus, x, y, k, depth, ops).Some?
    ensures var d := DecodeTree(g, cus, x, y, k, depth, ops).value;
      var p := ReadTree(g, cus, x, y, k, depth, e, v);
      p.Some? && p.value.cus == d.cus && Followed(e, ops, p.value.e, d.rest, v)
    decreases k, 5
  {
    hide Tracks, Followed, NextBin, Pow2, Inside, Outside, Skipped, Deeper, Blocks;
    FollowedNothing(e, ops, v);
    if Outside(g, x, y) {
    } else if !Inside(g, x, y, k) {
      EdgeSplits(g, x, y, k);
      QuadsRead(g, cus, x, y, k, depth, e, ops, v, 0);
    } else if k == 0 {
      UnitRead(g, cus, x, y, k, depth, e, ops, v);
    } else {
      FollowedBin(e, ops, v);
      var next := NextBin(e, ops[0].ctx, v).value.next;
      StillTracks(e, ops, next, ops[1..], v);
      if ops[0].bin == 1 {
        QuadsRead(g, cus, x, y, k, depth, next, ops[1..], v, 0);
      } else {
        UnitRead(g, cus, x, y, k, depth, next, ops[1..], v);
      }
      var p := ReadTree(g, cus, x, y, k, depth, e, v).value;
      FollowedOn(e, ops, next, ops[1..], p.e, DecodeTree(g, cus, x, y, k, depth, ops).value.rest, v);
    }
  }

  lemma StillTracks(e: Engine, ops: seq<Op>, next: Engine, rest: seq<Op>, v: seq<Bit>)
    requires Followed(e, ops, next, rest, v)
    ensures Tracks(next, rest, v)
  {
    hide Tracks;
  }

  lemma UnitRead(g: Geometry, cus: map<Pos, Cu>, x: nat, y: nat, k: nat, depth: nat, e: Engine, ops: seq<Op>,
                 v: seq<Bit>)
    requires Tracks(e, ops, v) && DecodeUnit(g, cus, x, y, k, depth, ops).Some?
    ensures var d := DecodeUnit(g, cus, x, y, k, depth, ops).value;
      var p := ReadUnit(g, cus, x, y, k, depth, e, v);
      p.Some? && p.value.cus == d.cus && Followed(e, ops, p.value.e, d.rest, v)
  {
    hide Tracks, Followed, NextBin, Skipped, Blocks;
    FollowedBin(e, ops, v);
  }

  lemma {:induction false} QuadsRead(g: Geometry, cus: map<Pos, Cu>, x: nat, y: nat, k: nat, depth: nat, e: Engine,
                                     ops: seq<Op>, v: seq<Bit>, j: nat)
    requires k > 0 && j <= 4 && Tracks(e, ops, v) && DecodeQuads(g, cus, x, y, k, depth, ops, j).Some?
    ensures var d := DecodeQuads(g, cus, x, y, k, depth, ops, j).value;
      var p := ReadQuads(g, cus, x, y, k, depth, e, v, j);
      p.Some? && p.value.cus == d.cus && Followed(e, ops, p.value.e, d.rest, v)
    decreases k, 4 - j
  {
    hide Tracks, Followed, Pow2, DecodeTree, ReadTree;
    FollowedNothing(e, ops, v);
    if j < 4 {
      var h := Pow2(k - 1);
      var qx, qy := QuadX(x, h, j), QuadY(y, h, j);
      TreeRead(g, cus, qx, qy, k - 1, depth + 1, e, ops, v);
      var d := DecodeTree(g, cus, qx, qy, k - 1, depth + 1, ops).value;
      var p := ReadTree(g, cus, qx, qy, k - 1, depth + 1, e, v).value;
      StillTracks(e, ops, p.e, d.rest, v);
      QuadsRead(g, d.cus, x, y, k, depth, p.e, d.rest, v, j + 1);
      var q := ReadQuads(g, d.cus, x, y, k, depth, p.e, v, j + 1).value;
      FollowedOn(e, ops, p.e, d.rest, q.e, DecodeQuads(g, d.cus, x, y, k, depth, d.rest, j + 1).value.rest, v);
    }
  }

  // ---- slice_segment_data() on the bits of the substreams --------------------------------------------

  /** Where a decoder stands: the CTU to read, units so far, engine, and contexts after each CTU read. */
  datatype Reader = Reader(cur: nat, cus: map<Pos, Cu>, e: Engine, stored: map<int, seq<Ctx>>)

  /**
   * CTUs until end_of_slice_segment_flag, at most size - cur of them; at a row's end with WPP the next
   * substream begins, its contexts synchronised with the row above by the decoder itself.
   */
  function ReadCtus(g: Geometry, wpp: bool, qp: int, first: nat, size: nat, r: Reader, v: seq<Bit>,
                    later: seq<seq<Bit>>)
      : Option<SliceData>
    requires g.ctbs > 0
    decreases size - r.cur
  {
    if r.cur >= size then None
    else
      match ReadTree(g, r.cus, RootX(g, r.cur), RootY(g, r.cur), g.levels, 0, r.e, v)
      case None => None
      case Some(p) =>
        var end := NextTerminate(p.e, v);
        if end.None? then None
        else if end.value.bin == 1 then
          if later == [] then Some(SliceData(r.cur + 1, p.cus)) else None
        else
          var stored := r.stored[r.cur := end.value.next.ctxs];
          if RowEnds(g, wpp, r.cur) then
            var subset := NextTerminate(end.value.next, v);
            if subset.None? || subset.value.bin == 0 || later == [] then None
            else
              var e := Engine(DecStart(later[0]), RowStart(g, qp, first, r.cur + 1, stored));
              ReadCtus(g, wpp, qp, first, size, Reader(r.cur + 1, p.cus, e, stored), later[0], later[1..])
          else ReadCtus(g, wpp, qp, first, size, Reader(r.cur + 1, p.cus, end.value.next, stored), v, later)
  }

  /** A slice from its substreams' bits: fresh contexts, the first engine on the first substream. */
  function ReadSlice(g: Geometry, wpp: bool, qp: int, first: nat, size: nat, bits: seq<seq<Bit>>): Option<SliceData>
    requires g.ctbs > 0
  {
    if bits == [] then None
    else
      var e := Engine(DecStart(bits[0]), FreshContexts(qp));
      ReadCtus(g, wpp, qp, first, size, Reader(first, map[], e, map[]), bits[0], bits[1..])
  }

  /** The bits of every substream of the plan carry its bins, from its contexts. */
  ghost predicate Carried(segments: seq<Segment>, bits: seq<seq<Bit>>) {
    && |bits| == |segments|
    && forall i :: 0 <= i < |bits| ==> Tracks(Engine(DecStart(bits[i]), segments[i].ctxs), segments[i].ops, bits[i])
  }

  /** The plan's substream of CTU n: the finished ones come before it, it starts with the walk's contexts. */
  lemma {:induction false} PlanStarts(g: Geometry, wpp: bool, qp: int, first: nat, n: nat, count: nat)
    requires g.ctbs > 0 && n < count
    ensures var w, plan := WalkTo(g, wpp, qp, first, n), Plan(g, wpp, qp, first, count);
      |w.finished| < |plan| && plan[..|w.finished|] == w.finished && plan[|w.finished|].ctxs == w.start
    decreases count - n
  {
    hide EmitCtu, RowStart, FreshContexts, CtxsAfter;
    if n < count - 1 {
      PlanStarts(g, wpp, qp, first, n + 1, count);
      var w, w' := WalkTo(g, wpp, qp, first, n), WalkTo(g, wpp, qp, first, n + 1);
      var plan := Plan(g, wpp, qp, first, count);
      assert w.finished == w'.finished[..|w.finished|];
      assert plan[..|w.finished|] == plan[..|w'.finished|][..|w.finished|];
      if RowEnds(g, wpp, first + n) {
        assert plan[|w.finished|] == plan[..|w'.finished|][|w.finished|];
      }
    }
  }

  /** What remains of the plan from CTU n on, as substreams. */
  lemma PlanRemains(g: Geometry, wpp: bool, qp: int, first: nat, n: nat, count: nat)
    requires g.ctbs > 0 && n < count
    ensures var w, plan := WalkTo(g, wpp, qp, first, n), Plan(g, wpp, qp, first, count);
      var r := Rest(g, wpp, qp, first, n, count);
      var m := |w.finished|;
      && m < |plan| && plan[m].ctxs == w.start && plan[m].ops == w.ops + r.ops
      && |r.later| == |plan| - m - 1
  {
    hide Plan, WalkTo, Rest, EmitCtu;
    PlanSplits(g, wpp, qp, first, n, count);
    PlanStarts(g, wpp, qp, first, n, count);
    var w, plan := WalkTo(g, wpp, qp, first, n), Plan(g, wpp, qp, first, count);
    var r := Rest(g, wpp, qp, first, n, count);
    var m := |w.finished|;
    assert OpsOf(plan)[m] == plan[m].ops;
    assert (OpsOf(w.finished) + [w.ops + r.ops] + r.later)[m] == w.ops + r.ops;
  }

  /** The reader stands before CTU n as the plan does. */
  ghost predicate Before(g: Geometry, wpp: bool, qp: int, first: nat, n: nat, count: nat, r: Reader, v: seq<Bit>)
    requires g.ctbs > 0 && n < count
  {
    var w := WalkTo(g, wpp, qp, first, n);
    && r.cur == first + n && Holding(g, r.cus, first, first + n) && Agrees(g, r.cus, w.grid)
    && r.e.ctxs == w.ctxs && r.stored == w.stored && Tracks(r.e, Rest(g, wpp, qp, first, n, count).ops, v)
  }

  /** One CTU read: its blocks added, the engine past its bins, the contexts those after them. */
  lemma CtuRead(g: Geometry, first: nat, r: Reader, grid: map<Pos, nat>, rest: seq<Op>, v: seq<Bit>)
    requires WellShaped(g) && first <= r.cur && Holding(g, r.cus, first, r.cur) && Agrees(g, r.cus, grid)
    requires Tracks(r.e, EmitCtu(g, first, r.cur, grid).ops + rest, v)
    ensures var ctu := EmitCtu(g, first, r.cur, grid);
      var p := ReadTree(g, r.cus, RootX(g, r.cur), RootY(g, r.cur), g.levels, 0, r.e, v);
      && p.Some? && Holding(g, p.value.cus, first, r.cur + 1) && Agrees(g, p.value.cus, ctu.grid)
      && Tracks(p.value.e, rest, v) && p.value.e.ctxs == CtxsAfter(r.e.ctxs, ctu.ops)
  {
    hide *;
    WellShapedRows(g);
    var ctu := EmitCtu(g, first, r.cur, grid);
    var ops := ctu.ops + rest;
    CtuDecodes(g, first, r.cur, r.cus, grid, rest);
    var x, y := RootX(g, r.cur), RootY(g, r.cur);
    TreeRead(g, r.cus, x, y, g.levels, 0, r.e, ops, v);
    var p := ReadTree(g, r.cus, x, y, g.levels, 0, r.e, v).value;
    FollowedMeans(r.e, ops, p.e, rest, v);
    assert ops[..|ops| - |rest|] == ctu.ops;
  }

  lemma WellShapedRows(g: Geometry)
    requires WellShaped(g)
    ensures g.ctbs > 0
  {
    hide CtbSize;
  }

  lemma FollowedMeans(e: Engine, ops: seq<Op>, next: Engine, rest: seq<Op>, v: seq<Bit>)
    requires Followed(e, ops, next, rest, v)
    ensures |rest| <= |ops| && Tracks(next, rest, v) && next.ctxs == CtxsAfter(e.ctxs, ops[..|ops| - |rest|])
  {
    hide Tracks;
  }

  /** The last CTU: the slice ends there. */
  lemma LastCtuRead(g: Geometry, wpp: bool, qp: int, first: nat, count: nat, size: nat, r: Reader, v: seq<Bit>)
    requires WellShaped(g) && 0 < count && first + count <= size && Before(g, wpp, qp, first, count - 1, count, r, v)
    ensures var s := ReadCtus(g, wpp, qp, first, size, r, v, []);
      s.Some? && s.value.end == first + count && Holding(g, s.value.cus, first, first + count)
      && forall q :: q in s.value.cus ==> s.value.cus[q].skip
  {
    hide Tracks, Holding, ReadTree, NextTerminate, EmitCtu, RootX, RootY, WalkTo, CtbSize;
    var grid := WalkTo(g, wpp, qp, first, count - 1).grid;
    var ctu := EmitCtu(g, first, first + count - 1, grid);
    assert ctu.ops + [] == ctu.ops;
    CtuRead(g, first, r, grid, [], v);
    TracksEnd(ReadTree(g, r.cus, RootX(g, r.cur), RootY(g, r.cur), g.levels, 0, r.e, v).value.e, v);
  }

  /** The reader after a CTU that is not the last, within its substream or in the next. */
  function Onward(g: Geometry, wpp: bool, qp: int, first: nat, r: Reader, v: seq<Bit>, next: seq<Bit>): Option<Reader>
    requires g.ctbs > 0
  {
    match ReadTree(g, r.cus, RootX(g, r.cur), RootY(g, r.cur), g.levels, 0, r.e, v)
    case None => None
    case Some(p) =>
      var end := NextTerminate(p.e, v);
      if end.None? || end.value.bin == 1 then None
      else
        var stored := r.stored[r.cur := end.value.next.ctxs];
        if RowEnds(g, wpp, r.cur) then
          var subset := NextTerminate(end.value.next, v);
          if subset.None? || subset.value.bin == 0 then None
          else
            Some(Reader(r.cur + 1, p.cus,
                        Engine(DecStart(next), RowStart(g, qp, first, r.cur + 1, stored)), stored))
        else Some(Reader(r.cur + 1, p.cus, end.value.next, stored))
  }

  lemma OnwardRead(g: Geometry, wpp: bool, qp: int, first: nat, size: nat, r: Reader, v: seq<Bit>, later: seq<seq<Bit>>)
    requires g.ctbs > 0 && r.cur < size && later != []
    ensures var o := Onward(g, wpp, qp, first, r, v, later[0]);
      var s := ReadCtus(g, wpp, qp, first, size, r, v, later);
      && (o.Some? && RowEnds(g, wpp, r.cur) ==> s == ReadCtus(g, wpp, qp, first, size, o.value, later[0], later[1..]))
      && (o.Some? && !RowEnds(g, wpp, r.cur) ==> s == ReadCtus(g, wpp, qp, first, size, o.value, v, later))
  {
    hide ReadTree, NextTerminate, RowStart, DecStart, CtbSize;
  }

  lemma OnwardReadLast(g: Geometry, wpp: bool, qp: int, first: nat, size: nat, r: Reader, v: seq<Bit>)
    requires g.ctbs > 0 && r.cur < size && !RowEnds(g, wpp, r.cur)
    ensures var o := Onward(g, wpp, qp, first, r, v, []);
      o.Some? ==> ReadCtus(g, wpp, qp, first, size, r, v, []) == ReadCtus(g, wpp, qp, first, size, o.value, v, [])
  {
    hide ReadTree, NextTerminate, RowStart, DecStart, CtbSize;
  }

  /** The bins after CTU n that is not the last. */
  lemma RestSteps(g: Geometry, wpp: bool, qp: int, first: nat, n: nat, count: nat)
    requires g.ctbs > 0 && n + 1 < count
    ensures var ctu := EmitCtu(g, first, first + n, WalkTo(g, wpp, qp, first, n).grid);
      var next := Rest(g, wpp, qp, first, n + 1, count).ops;
      Rest(g, wpp, qp, first, n, count).ops
      == ctu.ops + if RowEnds(g, wpp, first + n) then [Continue] else [Continue] + next
  {
    hide EmitCtu, WalkTo;
  }

  lemma WalkSteps(g: Geometry, wpp: bool, qp: int, first: nat, n: nat)
    requires g.ctbs > 0
    ensures var w, w' := WalkTo(g, wpp, qp, first, n), WalkTo(g, wpp, qp, first, n + 1);
      var ctu := EmitCtu(g, first, first + n, w.grid);
      && w'.grid == ctu.grid && w'.stored == w.stored[first + n := CtxsAfter(w.ctxs, ctu.ops)]
      && if RowEnds(g, wpp, first + n)
         then |w'.finished| == |w.finished| + 1 && w'.start == w'.ctxs == RowStart(g, qp, first, first + n + 1, w'.stored)
              && w'.ops == []
         else w'.finished == w.finished && w'.ctxs == CtxsAfter(w.ctxs, ctu.ops)
  {
    hide EmitCtu, CtxsAfter, RowStart, FreshContexts;
  }

  /** A CTU that is not the last leaves the reader before the next, as the plan has it. */
  lemma StepRead(g: Geometry, wpp: bool, qp: int, first: nat, n: nat, count: nat, r: Reader, v: seq<Bit>,
                 next: seq<Bit>)
    requires WellShaped(g) && n + 1 < count && Before(g, wpp, qp, first, n, count, r, v)
    requires RowEnds(g, wpp, first + n) ==>
      Tracks(Engine(DecStart(next), WalkTo(g, wpp, qp, first, n + 1).start), Rest(g, wpp, qp, first, n + 1, count).ops, next)
    ensures var o := Onward(g, wpp, qp, first, r, v, next);
      o.Some? && Before(g, wpp, qp, first, n + 1, count, o.value, if RowEnds(g, wpp, first + n) then next else v)
  {
    hide Tracks, Holding, Agrees, ReadTree, NextTerminate, EmitCtu, RootX, RootY, WalkTo, Rest, CtxsAfter, RowStart, CtbSize;
    hide DecStart, RowEnds;
    var grid := WalkTo(g, wpp, qp, first, n).grid;
    var rest := if RowEnds(g, wpp, first + n) then [Continue] else [Continue] + Rest(g, wpp, qp, first, n + 1, count).ops;
    RestSteps(g, wpp, qp, first, n, count);
    WalkSteps(g, wpp, qp, first, n);
    CtuRead(g, first, r, grid, rest, v);
    var p := ReadTree(g, r.cus, RootX(g, r.cur), RootY(g, r.cur), g.levels, 0, r.e, v).value;
    TracksContinue(p.e, rest, v);
    assert rest[1..] == if RowEnds(g, wpp, first + n) then [] else Rest(g, wpp, qp, first, n + 1, count).ops;
    if RowEnds(g, wpp, first + n) { TracksEnd(NextTerminate(p.e, v).value.next, v); }
  }

  lemma {:induction false} CtusRead(g: Geometry, wpp: bool, qp: int, first: nat, n: nat, count: nat, size: nat,
                                    r: Reader,
                                    bits: seq<seq<Bit>>)
    requires WellShaped(g) && n < count && first + count <= size
    requires Carried(Plan(g, wpp, qp, first, count), bits)
    requires |WalkTo(g, wpp, qp, first, n).finished| < |bits|
    requires Before(g, wpp, qp, first, n, count, r, bits[|WalkTo(g, wpp, qp, first, n).finished|])
    ensures var m := |WalkTo(g, wpp, qp, first, n).finished|;
      var s := ReadCtus(g, wpp, qp, first, size, r, bits[m], bits[m + 1..]);
      s.Some? && s.value.end == first + count && Holding(g, s.value.cus, first, first + count)
      && forall q :: q in s.value.cus ==> s.value.cus[q].skip
    decreases count - n
  {
    hide Holding, Plan, WalkTo, Rest, ReadCtus, Onward, Tracks, CtbSize, RowEnds;
    var m := |WalkTo(g, wpp, qp, first, n).finished|;
    var v, later := bits[m], bits[m + 1..];
    PlanRemains(g, wpp, qp, first, n, count);
    if n == count - 1 {
      NothingLater(g, wpp, qp, first, count);
      LastCtuRead(g, wpp, qp, first, count, size, r, v);
    } else {
      WalkSteps(g, wpp, qp, first, n);
      PlanRemains(g, wpp, qp, first, n + 1, count);
      hide Before;
      if RowEnds(g, wpp, first + n) {
        assert [] + Rest(g, wpp, qp, first, n + 1, count).ops == Rest(g, wpp, qp, first, n + 1, count).ops;
        StepRead(g, wpp, qp, first, n, count, r, v, bits[m + 1]);
        At(g, wpp, qp, first, n, count, r, v);
        OnwardRead(g, wpp, qp, first, size, r, v, later);
        assert later[1..] == bits[m + 2..];
        CtusRead(g, wpp, qp, first, n + 1, count, size, Onward(g, wpp, qp, first, r, v, bits[m + 1]).value, bits);
      } else {
        var next := if later == [] then [] else later[0];
        StepRead(g, wpp, qp, first, n, count, r, v, next);
        At(g, wpp, qp, first, n, count, r, v);
        if later == [] { OnwardReadLast(g, wpp, qp, first, size, r, v); } else { OnwardRead(g, wpp, qp, first, size, r, v, later); }
        CtusRead(g, wpp, qp, first, n + 1, count, size, Onward(g, wpp, qp, first, r, v, next).value, bits);
      }
    }
  }

  lemma At(g: Geometry, wpp: bool, qp: int, first: nat, n: nat, count: nat, r: Reader, v: seq<Bit>)
    requires g.ctbs > 0 && n < count && Before(g, wpp, qp, first, n, count, r, v)
    ensures r.cur == first + n
  {
  }

  lemma NothingLater(g: Geometry, wpp: bool, qp: int, first: nat, count: nat)
    requires g.ctbs > 0 && count > 0
    ensures Rest(g, wpp, qp, first, count - 1, count).later == []
  {
  }

  /**
   * A decoder that has only the substreams' bits, with its own contexts, its own context synchronisation and
   * its own view of the neighbours, reads a slice of exactly count CTUs, every block of them in the picture
   * in a skipped unit.
   */
  lemma SliceReads(g: Geometry, wpp: bool, qp: int, first: nat, count: nat, size: nat, bits: seq<seq<Bit>>)
    requires WellShaped(g) && count > 0 && first + count <= size
    requires Carried(Plan(g, wpp, qp, first, count), bits)
    ensures var s := ReadSlice(g, wpp, qp, first, size, bits);
      s.Some? && s.value.end == first + count && Holding(g, s.value.cus, first, first + count)
      && forall q :: q in s.value.cus ==> s.value.cus[q].skip
  {
    hide Holding, Plan, Rest, ReadCtus, Tracks, CtbSize, FreshContexts, DecStart;
    PlanRemains(g, wpp, qp, first, 0, count);
    NothingHeld(g, first);
    var r := Rest(g, wpp, qp, first, 0, count);
    assert [] + r.ops == r.ops;
    CtusRead(g, wpp, qp, first, 0, count, size, Reader(first, map[], Engine(DecStart(bits[0]), FreshContexts(qp)), map[]), bits);
  }
}
