/** The writer's recursion over a CTU, with its depth grid and arithmetic coder, and CTUs in raster order. */
module CodingUnits {
  import opened Bits
  import opened Cabac
  import opened CodingTree

  // ---- coding a list of bins ----------------------------------------------------------------

  datatype Coder = Coder(enc: Enc, ctxs: seq<Ctx>)

  /** Registers and contexts after the bins. */
  function CodeOps(c: Coder, ops: seq<Op>): (r: Coder)
    requires Ready(c.enc) && Usable(ops, c.ctxs)
    ensures Ready(r.enc) && |r.ctxs| == |c.ctxs|
    decreases |ops|
  {
    if ops == [] then c
    else
      match ops[0]
      case Code(i, bin) =>
        NarrowBounded(c.enc, c.ctxs[i], bin);
        CodeOps(Coder(AfterBin(c.enc, c.ctxs[i], bin), c.ctxs[i := NextCtx(c.ctxs[i], bin)]), ops[1..])
      case Continue =>
        NarrowBounded(c.enc, Ctx(0, 0), 0);
        CodeOps(Coder(AfterContinue(c.enc), c.ctxs), ops[1..])
  }

  lemma {:induction false} CodeAppend(c: Coder, a: seq<Op>, b: seq<Op>)
    requires Ready(c.enc) && Usable(a, c.ctxs) && Usable(b, c.ctxs)
    ensures Usable(a + b, c.ctxs) && CodeOps(c, a + b) == CodeOps(CodeOps(c, a), b)
    decreases |a|
  {
    hide AfterBin, AfterContinue;
    if a == [] {
      assert a + b == b;
    } else {
      assert (a + b)[1..] == a[1..] + b;
      match a[0] {
        case Code(i, bin) =>
          NarrowBounded(c.enc, c.ctxs[i], bin);
          CodeAppend(Coder(AfterBin(c.enc, c.ctxs[i], bin), c.ctxs[i := NextCtx(c.ctxs[i], bin)]), a[1..], b);
        case Continue =>
          NarrowBounded(c.enc, Ctx(0, 0), 0);
          CodeAppend(Coder(AfterContinue(c.enc), c.ctxs), a[1..], b);
      }
    }
  }

  /** A whole substream is its bins, then the flush. */
  lemma {:induction false} EncodeAllCodes(c: Coder, ops: seq<Op>)
    requires Ready(c.enc) && Usable(ops, c.ctxs)
    ensures EncodeAll(c.enc, c.ctxs, ops) == AfterFlush(CodeOps(c, ops).enc)
    decreases |ops|
  {
    hide AfterBin, AfterContinue, AfterFlush;
    if ops != [] {
      match ops[0] {
        case Code(i, bin) =>
          NarrowBounded(c.enc, c.ctxs[i], bin);
          EncodeAllCodes(Coder(AfterBin(c.enc, c.ctxs[i], bin), c.ctxs[i := NextCtx(c.ctxs[i], bin)]), ops[1..]);
        case Continue =>
          NarrowBounded(c.enc, Ctx(0, 0), 0);
          EncodeAllCodes(Coder(AfterContinue(c.enc), c.ctxs), ops[1..]);
      }
    }
  }

  /** Three split and three skip contexts. */
  const CONTEXTS := 6

  ghost predicate Coded(ops: seq<Op>) {
    forall i :: 0 <= i < |ops| && ops[i].Code? ==> ops[i].ctx < CONTEXTS
  }

  lemma {:induction false} TreeCoded(g: Geometry, first: nat, cur: nat, grid: map<Pos, nat>, x: nat, y: nat, k: nat,
                                     depth: nat)
    ensures Coded(EmitTree(g, first, cur, grid, x, y, k, depth).ops)
    decreases k, 5
  {
    hide NbAvail, Depth, Mark, Pow2;
    if !Outside(g, x, y) && !Inside(g, x, y, k) {
      EdgeSplits(g, x, y, k);
      QuadsCoded(g, first, cur, grid, x, y, k, depth, 0);
    }
  }

  lemma {:induction false} QuadsCoded(g: Geometry, first: nat, cur: nat, grid: map<Pos, nat>,
                                      x: nat, y: nat, k: nat, depth: nat, j: nat)
    requires k > 0 && j <= 4
    ensures Coded(EmitQuads(g, first, cur, grid, x, y, k, depth, j).ops)
    decreases k, 4 - j
  {
    hide EmitTree, Pow2;
    if j < 4 {
      var h := Pow2(k - 1);
      TreeCoded(g, first, cur, grid, QuadX(x, h, j), QuadY(y, h, j), k - 1, depth + 1);
      var a := EmitTree(g, first, cur, grid, QuadX(x, h, j), QuadY(y, h, j), k - 1, depth + 1);
      QuadsCoded(g, first, cur, a.grid, x, y, k, depth, j + 1);
    }
  }

  // ---- the writer ---------------------------------------------------------------------------

  ghost function PaintedDepth(before: map<Pos, nat>, x: nat, y: nat, size: nat, depth: nat, my: nat, mx: nat, i: int,
                              j: int): nat {
    if x <= i < x + size && y <= j && (j < my || (j == my && i < mx)) then depth else Depth(before, Pos(i, j))
  }

  lemma MarkedDepths(g: Geometry, grid: map<Pos, nat>, x: nat, y: nat, k: nat, depth: nat)
    requires Inside(g, x, y, k)
    ensures var marked := Mark(g, grid, x, y, k, depth);
      var size := Pow2(k);
      forall p: Pos | InPicture(g, p) :: Depth(marked, p) == PaintedDepth(grid, x, y, size, depth, y + size, x, p.x, p.y)
  {
    hide Pow2;
  }

  class Emitter {
    const g: Geometry
    const enc: CabacEnc
    const depths: array2<nat>
    const first: nat
    var cur: nat
    var ctxs: seq<Ctx>
    ghost var grid: map<Pos, nat>

    ghost predicate Valid()
      reads this, enc, enc.bw, depths
    {
      enc.Valid() && Ready(enc.View()) && |ctxs| == CONTEXTS && Gridded()
    }

    /** The array holds the depths. */
    ghost predicate Gridded()
      reads this, depths
    {
      && depths.Length0 == g.height && depths.Length1 == g.width
      && forall x, y :: 0 <= x < g.width && 0 <= y < g.height ==> depths[y, x] == Depth(grid, Pos(x, y))
    }

    ghost function View(): Coder
      requires enc.Valid()
      reads this, enc, enc.bw
    {
      Coder(enc.View(), ctxs)
    }

    constructor (geometry: Geometry, encoder: CabacEnc, slice: nat, contexts: seq<Ctx>)
      requires encoder.Valid() && Ready(encoder.View()) && |contexts| == CONTEXTS
      ensures g == geometry && enc == encoder && first == slice && cur == slice && ctxs == contexts && grid == map[]
      ensures Valid() && fresh(depths)
    {
      g, enc, first, cur, ctxs, grid := geometry, encoder, slice, slice, contexts, map[];
      depths := new nat[geometry.height, geometry.width]((_, _) => 0);
    }

    /** Code one bin with context i. */
    method Bin(i: nat, bin: Bit)
      requires Valid() && i < CONTEXTS
      modifies this`ctxs, enc, enc.bw
      ensures Valid() && enc.origin == old(enc.origin)
      ensures enc.bw.bits[..enc.origin] == old(enc.bw.bits[..enc.origin])
      ensures Usable([Code(i, bin)], old(ctxs)) && View() == CodeOps(old(View()), [Code(i, bin)])
    {
      hide AfterBin;
      NarrowBounded(enc.View(), ctxs[i], bin);
      var c := enc.EncodeBin(ctxs[i], bin);
      ctxs := ctxs[i := c];
    }

    /** Rows above my, and row my up to mx, of the square have the depth; the rest is as in old. */
    ghost predicate Painted(before: map<Pos, nat>, x: nat, y: nat, size: nat, depth: nat, my: nat, mx: nat)
      requires depths.Length0 == g.height && depths.Length1 == g.width
      reads depths
    {
      forall i, j | 0 <= i < g.width && 0 <= j < g.height :: depths[j, i] == PaintedDepth(before, x, y, size, depth, my, mx, i, j)
    }

    /** Set the depth of a square inside the picture. */
    method MarkDepth(x: nat, y: nat, k: nat, depth: nat)
      requires Valid() && Inside(g, x, y, k)
      modifies this`grid, depths
      ensures Valid() && grid == Mark(g, old(grid), x, y, k, depth)
    {
      hide Depth, Ready, Pow2;
      var size := Pow2(k);
      var my := y;
      while my < y + size
        invariant y <= my <= y + size && grid == old(grid)
        invariant Painted(old(grid), x, y, size, depth, my, x)
      {
        var mx := x;
        while mx < x + size
          invariant x <= mx <= x + size && grid == old(grid)
          invariant Painted(old(grid), x, y, size, depth, my, mx)
        {
          depths[my, mx] := depth;
          mx := mx + 1;
        }
        my := my + 1;
      }
      grid := Mark(g, grid, x, y, k, depth);
      MarkedDepths(g, old(grid), x, y, k, depth);
    }

    /** The contribution of a neighbour to the split context. */
    method Neighbour(p: Pos, depth: nat) returns (split: nat, skip: nat)
      requires Valid()
      ensures split == One(NbAvail(g, first, cur, p) && Depth(grid, p) > depth)
      ensures skip == One(NbAvail(g, first, cur, p))
    {
      hide Addr;
      if NbAvail(g, first, cur, p) {
        split, skip := One(depths[p.y, p.x] > depth), 1;
      } else {
        split, skip := 0, 0;
      }
    }

    method EmitUnit(x: nat, y: nat, k: nat, depth: nat)
      requires Valid() && Inside(g, x, y, k)
      modifies this`ctxs, this`grid, enc, enc.bw, depths
      ensures Valid() && enc.origin == old(enc.origin)
      ensures enc.bw.bits[..enc.origin] == old(enc.bw.bits[..enc.origin])
      ensures grid == Mark(g, old(grid), x, y, k, depth)
      ensures var ops := UnitOps(g, first, cur, old(grid), x, y, k, depth);
        Usable(ops, old(ctxs)) && View() == CodeOps(old(View()), ops)
    {
      hide NbAvail, Depth, CodeOps, Mark, Pow2, Ready;
      var leftSplit, leftSkip := Neighbour(Left(x, y), depth);
      var aboveSplit, aboveSkip := Neighbour(Above(x, y), depth);
      ghost var start := View();
      ghost var skip := [Code(SKIP_CTX + leftSkip + aboveSkip, 1)];
      if k > 0 {
        Bin(leftSplit + aboveSplit, 0);
        Bin(SKIP_CTX + leftSkip + aboveSkip, 1);
        CodeAppend(start, [Code(leftSplit + aboveSplit, 0)], skip);
      } else {
        Bin(SKIP_CTX + leftSkip + aboveSkip, 1);
        assert [] + skip == skip;
      }
      MarkDepth(x, y, k, depth);
    }

    /** coding_quadtree of an all-skip square. */
    method EmitCu(x: nat, y: nat, k: nat, depth: nat)
      requires Valid()
      modifies this`ctxs, this`grid, enc, enc.bw, depths
      ensures Valid() && enc.origin == old(enc.origin)
      ensures enc.bw.bits[..enc.origin] == old(enc.bw.bits[..enc.origin])
      ensures var e := EmitTree(g, first, cur, old(grid), x, y, k, depth);
        grid == e.grid && Usable(e.ops, old(ctxs)) && View() == CodeOps(old(View()), e.ops)
      decreases k
    {
      hide CodeOps, Mark, Pow2, Ready, UnitOps;
      if Outside(g, x, y) {
        EmptyOps(View());
        return;
      }
      if !Inside(g, x, y, k) {
        EdgeSplits(g, x, y, k);
        var h := Pow2(k - 1);
        ghost var start, grid0 := View(), grid;
        EmitCu(x, y, k - 1, depth + 1);
        ghost var a := EmitTree(g, first, cur, grid0, x, y, k - 1, depth + 1);
        EmitCu(x + h, y, k - 1, depth + 1);
        ghost var b := EmitTree(g, first, cur, a.grid, x + h, y, k - 1, depth + 1);
        CodeAppend(start, a.ops, b.ops);
        EmitCu(x, y + h, k - 1, depth + 1);
        ghost var c := EmitTree(g, first, cur, b.grid, x, y + h, k - 1, depth + 1);
        CodeAppend(start, a.ops + b.ops, c.ops);
        EmitCu(x + h, y + h, k - 1, depth + 1);
        ghost var d := EmitTree(g, first, cur, c.grid, x + h, y + h, k - 1, depth + 1);
        CodeAppend(start, a.ops + b.ops + c.ops, d.ops);
        FourQuads(g, first, cur, grid0, x, y, k, depth);
        return;
      }
      EmitUnit(x, y, k, depth);
    }
  }

  lemma EmptyOps(c: Coder)
    requires Ready(c.enc)
    ensures Usable([], c.ctxs) && CodeOps(c, []) == c
  {
  }

  lemma EdgeSplits(g: Geometry, x: nat, y: nat, k: nat)
    requires !Outside(g, x, y) && !Inside(g, x, y, k)
    ensures k > 0
  {
  }

  lemma FourQuads(g: Geometry, first: nat, cur: nat, grid: map<Pos, nat>, x: nat, y: nat, k: nat, depth: nat)
    requires !Outside(g, x, y) && !Inside(g, x, y, k) && k > 0
    ensures var h := Pow2(k - 1);
      var a := EmitTree(g, first, cur, grid, x, y, k - 1, depth + 1);
      var b := EmitTree(g, first, cur, a.grid, x + h, y, k - 1, depth + 1);
      var c := EmitTree(g, first, cur, b.grid, x, y + h, k - 1, depth + 1);
      var d := EmitTree(g, first, cur, c.grid, x + h, y + h, k - 1, depth + 1);
      EmitTree(g, first, cur, grid, x, y, k, depth) == Emission(a.ops + b.ops + c.ops + d.ops, d.grid)
  {
    hide Pow2, UnitOps, Mark;
    var h := Pow2(k - 1);
    var a := EmitTree(g, first, cur, grid, x, y, k - 1, depth + 1);
    var b := EmitTree(g, first, cur, a.grid, x + h, y, k - 1, depth + 1);
    var c := EmitTree(g, first, cur, b.grid, x, y + h, k - 1, depth + 1);
    var d := EmitTree(g, first, cur, c.grid, x + h, y + h, k - 1, depth + 1);
    hide EmitTree;
    var e4 := EmitQuads(g, first, cur, d.grid, x, y, k, depth, 4);
    var e3 := EmitQuads(g, first, cur, c.grid, x, y, k, depth, 3);
    var e2 := EmitQuads(g, first, cur, b.grid, x, y, k, depth, 2);
    var e1 := EmitQuads(g, first, cur, a.grid, x, y, k, depth, 1);
    assert e3.ops == d.ops;
    assert e2.ops == c.ops + d.ops;
    assert e1.ops == b.ops + (c.ops + d.ops);
    assert a.ops + (b.ops + (c.ops + d.ops)) == a.ops + b.ops + c.ops + d.ops;
    TreeIsQuads(g, first, cur, grid, x, y, k, depth);
  }

  lemma TreeIsQuads(g: Geometry, first: nat, cur: nat, grid: map<Pos, nat>, x: nat, y: nat, k: nat, depth: nat)
    requires !Outside(g, x, y) && !Inside(g, x, y, k) && k > 0
    ensures EmitTree(g, first, cur, grid, x, y, k, depth) == EmitQuads(g, first, cur, grid, x, y, k, depth, 0)
  {
  }
}
