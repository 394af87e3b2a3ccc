/** The CTUs of a concealment slice, their WPP substreams and contexts, and a decoder's walk over them. */
module SlicePlan {
  import opened Bytes
  import opened Bits
  import opened Cabac
  import opened CodingTree
  import opened CodingUnits

  // ---- context initialisation (section 9.3.2.2 of ITU-T H.265) -----------------------------

  function Clamp(v: int, lo: int, hi: int): (r: int)
    requires lo <= hi
    ensures lo <= r <= hi
  {
    if v < lo then lo else if v > hi then hi else v
  }

  /** A context from its initialisation byte; shifts of negative numbers round down. */
  function CtxInit(init: Byte, qp: int): Ctx {
    var slope := init / 16 * 5 - 45;
    var offset := init % 16 * 8 - 16;
    var pre := Clamp(slope * Clamp(qp, 0, 51) / 16 + offset, 1, 126);
    if pre <= 63 then Ctx(63 - pre, 0) else Ctx(pre - 64, 1)
  }

  function FreshContexts(qp: int): (s: seq<Ctx>)
    ensures |s| == CONTEXTS
  {
    [CtxInit(107, qp), CtxInit(139, qp), CtxInit(126, qp), CtxInit(197, qp), CtxInit(185, qp), CtxInit(201, qp)]
  }

  // ---- CTUs ----------------------------------------------------------------------------------

  /** The CTU rows cover the picture's width, and no row is wider than it must be. */
  predicate WellShaped(g: Geometry) {
    g.width > 0 && g.height > 0 && g.ctbs > 0 && (g.ctbs - 1) * CtbSize(g) < g.width <= g.ctbs * CtbSize(g)
  }

  function RootX(g: Geometry, cur: nat): nat
    requires g.ctbs > 0
  {
    cur % g.ctbs * CtbSize(g)
  }

  function RootY(g: Geometry, cur: nat): nat
    requires g.ctbs > 0
  {
    cur / g.ctbs * CtbSize(g)
  }

  function EmitCtu(g: Geometry, first: nat, cur: nat, grid: map<Pos, nat>): Emission
    requires g.ctbs > 0
  {
    EmitTree(g, first, cur, grid, RootX(g, cur), RootY(g, cur), g.levels, 0)
  }

  /** The decoded blocks are those of CTUs first to end - 1. */
  ghost predicate Holding(g: Geometry, cus: map<Pos, Cu>, first: nat, end: nat) {
    forall p: Pos :: p in cus <==> InPicture(g, p) && first <= Addr(g, p) < end
  }

  lemma DivIs(v: int, c: int, q: int)
    requires c > 0
    ensures v / c == q <==> q * c <= v < q * c + c
  {
    if v / c < q { Scale(v / c + 1, q, c); }
    if v / c > q { Scale(q + 1, v / c, c); }
  }

  lemma Scale(a: int, b: int, c: int)
    requires a <= b && c > 0
    ensures a * c <= b * c
  {
  }

  /** A row and a column within the row, as one number. */
  lemma RowColumn(row: int, column: int, n: int, cur: int)
    requires 0 <= column < n
    ensures row * n + column == cur <==> row == cur / n && column == cur % n
  {
    DivIs(cur, n, row);
  }

  lemma ColumnBound(x: int, c: int, n: int)
    requires c > 0 && 0 <= x < n * c
    ensures 0 <= x / c < n
  {
    DivIs(x, c, x / c);
    if x / c >= n { Scale(n, x / c, c); }
  }

  /** A block of the picture lies in the CTU whose square holds it. */
  lemma CtuOf(g: Geometry, cur: nat, p: Pos)
    requires WellShaped(g) && InPicture(g, p)
    ensures Addr(g, p) == cur <==> InBlock(p, RootX(g, cur), RootY(g, cur), g.levels)
  {
    var c := CtbSize(g);
    CtbIsPow(g);
    hide Pow2, CtbSize;
    ColumnBound(p.x, c, g.ctbs);
    RowColumn(p.y / c, p.x / c, g.ctbs, cur);
    DivIs(p.x, c, cur % g.ctbs);
    DivIs(p.y, c, cur / g.ctbs);
  }

  lemma CtbIsPow(g: Geometry)
    ensures CtbSize(g) == Pow2(g.levels)
  {
  }

  /** Decoding one CTU adds exactly its blocks. */
  lemma CtuDecodes(g: Geometry, first: nat, cur: nat, cus: map<Pos, Cu>, grid: map<Pos, nat>, rest: seq<Op>)
    requires WellShaped(g) && first <= cur && Holding(g, cus, first, cur) && Agrees(g, cus, grid)
    ensures var e := EmitCtu(g, first, cur, grid);
      var d := DecodeTree(g, cus, RootX(g, cur), RootY(g, cur), g.levels, 0, e.ops + rest);
      && d.Some? && d.value.rest == rest && Holding(g, d.value.cus, first, cur + 1) && Agrees(g, d.value.cus, e.grid)
      && forall p :: p in cus ==> p in d.value.cus && d.value.cus[p] == cus[p]
  {
    hide Addr, EmitTree, DecodeTree, Pow2, CtbSize;
    var x, y := RootX(g, cur), RootY(g, cur);
    forall p: Pos | InPicture(g, p) ensures Addr(g, p) == cur <==> InBlock(p, x, y, g.levels) {
      CtuOf(g, cur, p);
    }
    assert InCtu(g, cur, x, y, g.levels);
    forall p: Pos | Beside(p, x, y, g.levels) ensures NbAvail(g, first, cur, p) <==> p in cus {
      assert !InBlock(p, x, y, g.levels);
    }
    TreeDecodes(g, first, cur, cus, grid, x, y, g.levels, 0, rest);
  }

  // ---- substreams ----------------------------------------------------------------------------

  /** Contexts at the start of a substream and the bins before its flush. */
  datatype Segment = Segment(ctxs: seq<Ctx>, ops: seq<Op>)

  /** The contexts after the bins. */
  function CtxsAfter(ctxs: seq<Ctx>, ops: seq<Op>): (r: seq<Ctx>)
    ensures |r| == |ctxs|
    decreases |ops|
  {
    if ops == [] then ctxs
    else if ops[0].Code? && ops[0].ctx < |ctxs| then
      CtxsAfter(ctxs[ops[0].ctx := NextCtx(ctxs[ops[0].ctx], ops[0].bin)], ops[1..])
    else CtxsAfter(ctxs, ops[1..])
  }

  /** Finished substreams, the current one, contexts now and after every coded CTU, and the depth grid. */
  datatype Walk = Walk(finished: seq<Segment>, start: seq<Ctx>, ops: seq<Op>, ctxs: seq<Ctx>,
                       stored: map<int, seq<Ctx>>, grid: map<Pos, nat>)

  /**
   * Contexts at the start of a CTU row: those after the CTU above and to the right, when the picture and
   * the slice have it, else fresh ones (section 9.3.1 of ITU-T H.265).
   */
  function RowStart(g: Geometry, qp: int, first: nat, addr: nat, stored: map<int, seq<Ctx>>): seq<Ctx> {
    var aboveRight := addr + 1 - g.ctbs;
    if g.ctbs >= 2 && aboveRight >= first && aboveRight in stored then stored[aboveRight] else FreshContexts(qp)
  }

  predicate RowEnds(g: Geometry, wpp: bool, cur: nat)
    requires g.ctbs > 0
  {
    wpp && (cur + 1) % g.ctbs == 0
  }

  function AfterCtu(g: Geometry, wpp: bool, qp: int, first: nat, w: Walk, cur: nat): Walk
    requires g.ctbs > 0
  {
    var e := EmitCtu(g, first, cur, w.grid);
    var ops := w.ops + e.ops + [Continue];
    var ctxs := CtxsAfter(w.ctxs, e.ops);
    var stored := w.stored[cur := ctxs];
    if RowEnds(g, wpp, cur) then
      var start := RowStart(g, qp, first, cur + 1, stored);
      Walk(w.finished + [Segment(w.start, ops)], start, [], start, stored, e.grid)
    else
      Walk(w.finished, w.start, ops, ctxs, stored, e.grid)
  }

  /** Before CTU n of the slice. */
  function WalkTo(g: Geometry, wpp: bool, qp: int, first: nat, n: nat): Walk
    requires g.ctbs > 0
  {
    if n == 0 then Walk([], FreshContexts(qp), [], FreshContexts(qp), map[], map[])
    else AfterCtu(g, wpp, qp, first, WalkTo(g, wpp, qp, first, n - 1), first + n - 1)
  }

  /** The substreams of a slice of count CTUs. */
  function Plan(g: Geometry, wpp: bool, qp: int, first: nat, count: nat): (s: seq<Segment>)
    requires g.ctbs > 0 && count > 0
    ensures s != []
  {
    var w := WalkTo(g, wpp, qp, first, count - 1);
    w.finished + [Segment(w.start, w.ops + EmitCtu(g, first, first + count - 1, w.grid).ops)]
  }

  // ---- a decoder over the substreams (section 7.3.8.1 of ITU-T H.265) -------------------------

  datatype SliceData = SliceData(end: nat, cus: map<Pos, Cu>)

  /**
   * CTU after CTU: a terminating 0 goes on to the next CTU, in the next substream at the end of a row with
   * WPP; a terminating 1 in the last substream ends the slice.
   */
  function DecodeCtus(g: Geometry, wpp: bool, cur: nat, cus: map<Pos, Cu>, ops: seq<Op>,
                      later: seq<seq<Op>>): Option<SliceData>
    requires g.ctbs > 0
    decreases |later|, |ops|
  {
    match DecodeTree(g, cus, RootX(g, cur), RootY(g, cur), g.levels, 0, ops)
    case None => None
    case Some(d) =>
      if d.rest == [] then
        if later == [] then Some(SliceData(cur + 1, d.cus)) else None
      else if !d.rest[0].Continue? then None
      else if RowEnds(g, wpp, cur) then
        if |d.rest| == 1 && later != [] then DecodeCtus(g, wpp, cur + 1, d.cus, later[0], later[1..]) else None
      else DecodeCtus(g, wpp, cur + 1, d.cus, d.rest[1..], later)
  }

  /** What is left of the plan from CTU n on: the rest of its substream, and the later ones. */
  datatype Remaining = Remaining(ops: seq<Op>, later: seq<seq<Op>>)

  ghost function Rest(g: Geometry, wpp: bool, qp: int, first: nat, n: nat, count: nat): Remaining
    requires g.ctbs > 0 && n < count
    decreases count - n
  {
    var e := EmitCtu(g, first, first + n, WalkTo(g, wpp, qp, first, n).grid);
    if n == count - 1 then Remaining(e.ops, [])
    else
      var r := Rest(g, wpp, qp, first, n + 1, count);
      if RowEnds(g, wpp, first + n) then Remaining(e.ops + [Continue], [r.ops] + r.later)
      else Remaining(e.ops + ([Continue] + r.ops), r.later)
  }

  ghost function OpsOf(segments: seq<Segment>): (r: seq<seq<Op>>)
    ensures |r| == |segments|
  {
    seq(|segments|, i requires 0 <= i < |segments| => segments[i].ops)
  }

  lemma OpsOfAppend(a: seq<Segment>, s: Segment)
    ensures OpsOf(a + [s]) == OpsOf(a) + [s.ops]
  {
  }

  /** The plan is what has been coded before CTU n and what remains from it. */
  lemma {:induction false} PlanSplits(g: Geometry, wpp: bool, qp: int, first: nat, n: nat, count: nat)
    requires g.ctbs > 0 && n < count
    ensures var w := WalkTo(g, wpp, qp, first, n);
      var r := Rest(g, wpp, qp, first, n, count);
      OpsOf(Plan(g, wpp, qp, first, count)) == OpsOf(w.finished) + [w.ops + r.ops] + r.later
    decreases count - n
  {
    hide EmitCtu, RowStart, OpsOf, FreshContexts, CtxsAfter;
    var w := WalkTo(g, wpp, qp, first, n);
    var e := EmitCtu(g, first, first + n, w.grid);
    if n == count - 1 {
      OpsOfAppend(w.finished, Segment(w.start, w.ops + e.ops));
      assert OpsOf(w.finished) + [w.ops + e.ops] + [] == OpsOf(w.finished) + [w.ops + e.ops];
    } else {
      PlanSplits(g, wpp, qp, first, n + 1, count);
      var r := Rest(g, wpp, qp, first, n + 1, count);
      var w' := WalkTo(g, wpp, qp, first, n + 1);
      var ops := w.ops + e.ops + [Continue];
      if RowEnds(g, wpp, first + n) {
        OpsOfAppend(w.finished, Segment(w.start, ops));
        assert w.ops + (e.ops + [Continue]) == ops;
        assert [] + r.ops == r.ops;
        assert OpsOf(w.finished) + [ops] + [r.ops] + r.later == OpsOf(w.finished) + [ops] + ([r.ops] + r.later);
      } else {
        assert w.ops + (e.ops + ([Continue] + r.ops)) == ops + r.ops;
      }
    }
  }

  lemma {:induction false} RestDecodes(g: Geometry, wpp: bool, qp: int, first: nat, n: nat, count: nat, cus: map<Pos, Cu>)
    requires WellShaped(g) && n < count
    requires Holding(g, cus, first, first + n) && Agrees(g, cus, WalkTo(g, wpp, qp, first, n).grid)
    ensures var r := Rest(g, wpp, qp, first, n, count);
      var p := DecodeCtus(g, wpp, first + n, cus, r.ops, r.later);
      && p.Some? && p.value.end == first + count && Holding(g, p.value.cus, first, first + count)
      && forall q :: q in p.value.cus ==> p.value.cus[q].skip
    decreases count - n
  {
    hide EmitCtu, RowStart, FreshContexts, CtxsAfter, DecodeTree, Holding, RootX, RootY, CtbSize;
    var grid := WalkTo(g, wpp, qp, first, n).grid;
    var e := EmitCtu(g, first, first + n, grid);
    var r := Rest(g, wpp, qp, first, n, count);
    if n == count - 1 {
      CtuDecodes(g, first, first + n, cus, grid, []);
      assert e.ops + [] == e.ops;
    } else {
      var next := Rest(g, wpp, qp, first, n + 1, count);
      var rest := if RowEnds(g, wpp, first + n) then [Continue] else [Continue] + next.ops;
      CtuDecodes(g, first, first + n, cus, grid, rest);
      var d := DecodeTree(g, cus, RootX(g, first + n), RootY(g, first + n), g.levels, 0, r.ops).value;
      RestDecodes(g, wpp, qp, first, n + 1, count, d.cus);
      assert rest[0] == Continue && rest[1..] == if RowEnds(g, wpp, first + n) then [] else next.ops;
      if RowEnds(g, wpp, first + n) {
        assert r.later[0] == next.ops && r.later[1..] == next.later;
      }
    }
  }

  /**
   * The planned bins decode, contexts chosen by the decoder and substream changes at row ends included, to a
   * slice of count CTUs in which every block of those CTUs in the picture belongs to a skipped unit.
   */
  lemma SliceDecodes(g: Geometry, wpp: bool, qp: int, first: nat, count: nat)
    requires WellShaped(g) && count > 0
    ensures var ops := OpsOf(Plan(g, wpp, qp, first, count));
      var p := DecodeCtus(g, wpp, first, map[], ops[0], ops[1..]);
      && p.Some? && p.value.end == first + count && Holding(g, p.value.cus, first, first + count)
      && forall q :: q in p.value.cus ==> p.value.cus[q].skip
  {
    hide OpsOf, Plan, Rest, DecodeCtus, FreshContexts;
    PlanSplits(g, wpp, qp, first, 0, count);
    NothingHeld(g, first);
    RestDecodes(g, wpp, qp, first, 0, count, map[]);
    var r := Rest(g, wpp, qp, first, 0, count);
    assert OpsOf([]) == [];
    assert [] + r.ops == r.ops;
    assert OpsOf(Plan(g, wpp, qp, first, count)) == [r.ops] + r.later;
  }

  lemma NothingHeld(g: Geometry, first: nat)
    ensures Holding(g, map[], first, first)
  {
  }
}
