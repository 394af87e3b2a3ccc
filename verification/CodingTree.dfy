/**
 * The coding quadtree of an all-skip slice, in units of the minimum coding block: what the concealment
 * writer codes from CTU addresses and a depth grid, and what a decoder that only knows the coding units
 * it has decoded so far makes of it (sections 7.3.8.4 and 9.3.4.2.2 of ITU-T H.265).
 */
module CodingTree {
  import opened Bytes
  import opened Bits
  import opened Cabac

  /** Picture size and CTU rows; a CTU is 2^levels blocks wide. */
  datatype Geometry = Geometry(width: nat, height: nat, levels: nat, ctbs: nat)

  datatype Pos = Pos(x: int, y: int)

  function CtbSize(g: Geometry): (c: nat)
    ensures c > 0
  {
    PowPositive(g.levels);
    Pow2(g.levels)
  }

  predicate InPicture(g: Geometry, p: Pos) {
    0 <= p.x < g.width && 0 <= p.y < g.height
  }

  /** Raster address of the CTU a block lies in. */
  function Addr(g: Geometry, p: Pos): int {
    p.y / CtbSize(g) * g.ctbs + p.x / CtbSize(g)
  }

  // ---- the writer's view ------------------------------------------------------------------

  /** A neighbour counts when it lies in the picture and in a CTU of this slice up to the current one. */
  predicate NbAvail(g: Geometry, first: nat, cur: nat, p: Pos) {
    InPicture(g, p) && first <= Addr(g, p) <= cur
  }

  function Depth(grid: map<Pos, nat>, p: Pos): nat {
    if p in grid then grid[p] else 0
  }

  function One(c: bool): nat {
    if c then 1 else 0
  }

  function Left(x: nat, y: nat): Pos {
    Pos(x - 1, y)
  }

  function Above(x: nat, y: nat): Pos {
    Pos(x, y - 1)
  }

  function SplitInc(g: Geometry, first: nat, cur: nat, grid: map<Pos, nat>, x: nat, y: nat, depth: nat): nat {
    One(NbAvail(g, first, cur, Left(x, y)) && Depth(grid, Left(x, y)) > depth)
    + One(NbAvail(g, first, cur, Above(x, y)) && Depth(grid, Above(x, y)) > depth)
  }

  /** Availability alone: every coded unit of the slice is a skip. */
  function SkipInc(g: Geometry, first: nat, cur: nat, x: nat, y: nat): nat {
    One(NbAvail(g, first, cur, Left(x, y))) + One(NbAvail(g, first, cur, Above(x, y)))
  }

  const SKIP_CTX := 3

  function UnitOps(g: Geometry, first: nat, cur: nat, grid: map<Pos, nat>, x: nat, y: nat, k: nat,
                   depth: nat): seq<Op> {
    (if k > 0 then [Code(SplitInc(g, first, cur, grid, x, y, depth), 0)] else [])
    + [Code(SKIP_CTX + SkipInc(g, first, cur, x, y), 1)]
  }

  predicate InBlock(p: Pos, x: nat, y: nat, k: nat) {
    x <= p.x < x + Pow2(k) && y <= p.y < y + Pow2(k)
  }

  /** The blocks of the square of size 2^k at (x, y) that lie in the picture. */
  function Blocks(g: Geometry, x: nat, y: nat, k: nat): (s: set<Pos>)
    ensures forall p: Pos :: p in s <==> InBlock(p, x, y, k) && InPicture(g, p)
  {
    var s := set px: int, py: int | x <= px < x + Pow2(k) && y <= py < y + Pow2(k) && px < g.width && py < g.height
               :: Pos(px, py);
    assert forall p: Pos :: p in s ==> InBlock(p, x, y, k) && InPicture(g, p);
    assert forall p: Pos :: InBlock(p, x, y, k) && InPicture(g, p) ==> Pos(p.x, p.y) in s;
    s
  }

  function Mark(g: Geometry, grid: map<Pos, nat>, x: nat, y: nat, k: nat, depth: nat): map<Pos, nat> {
    grid + map p | p in Blocks(g, x, y, k) :: depth
  }

  datatype Emission = Emission(ops: seq<Op>, grid: map<Pos, nat>)

  predicate Outside(g: Geometry, x: nat, y: nat) {
    x >= g.width || y >= g.height
  }

  predicate Inside(g: Geometry, x: nat, y: nat, k: nat) {
    x + Pow2(k) <= g.width && y + Pow2(k) <= g.height
  }

  /** Quadrant j of a square of size 2h. */
  function QuadX(x: nat, h: nat, j: nat): nat {
    if j == 1 || j == 3 then x + h else x
  }

  function QuadY(y: nat, h: nat, j: nat): nat {
    if j >= 2 then y + h else y
  }

  function EmitTree(g: Geometry, first: nat, cur: nat, grid: map<Pos, nat>, x: nat, y: nat, k: nat,
                    depth: nat): Emission
    decreases k, 5
  {
    if Outside(g, x, y) then Emission([], grid)
    else if Inside(g, x, y, k) then
      Emission(UnitOps(g, first, cur, grid, x, y, k, depth), Mark(g, grid, x, y, k, depth))
    else
      EmitQuads(g, first, cur, grid, x, y, k, depth, 0)
  }

  /** Quadrants j to 3 of a square across the picture's edge: the split is inferred. */
  function EmitQuads(g: Geometry, first: nat, cur: nat, grid: map<Pos, nat>, x: nat, y: nat, k: nat, depth: nat, j: nat)
      : Emission
    requires k > 0 && j <= 4
    decreases k, 4 - j
  {
    if j == 4 then Emission([], grid)
    else
      var h := Pow2(k - 1);
      var a := EmitTree(g, first, cur, grid, QuadX(x, h, j), QuadY(y, h, j), k - 1, depth + 1);
      var b := EmitQuads(g, first, cur, a.grid, x, y, k, depth, j + 1);
      Emission(a.ops + b.ops, b.grid)
  }

  // ---- the decoder's view -----------------------------------------------------------------

  /** A decoded coding unit. */
  datatype Cu = Cu(depth: nat, skip: bool)

  /** Units decoded so far, by block, and the bins left. */
  datatype Decoding = Decoding(cus: map<Pos, Cu>, rest: seq<Op>)

  function Deeper(cus: map<Pos, Cu>, p: Pos, depth: nat): nat {
    One(p in cus && cus[p].depth > depth)
  }

  function Skipped(cus: map<Pos, Cu>, p: Pos): nat {
    One(p in cus && cus[p].skip)
  }

  /** The next bin was coded with this context. */
  predicate Meets(ops: seq<Op>, ctx: nat) {
    ops != [] && ops[0].Code? && ops[0].ctx == ctx
  }

  /** cu_skip_flag with the context of the decoded neighbours; a unit that is not a skip is not understood. */
  function DecodeUnit(g: Geometry, cus: map<Pos, Cu>, x: nat, y: nat, k: nat, depth: nat, ops: seq<Op>)
      : (r: Option<Decoding>)
    ensures r.Some? ==> |r.value.rest| <= |ops|
  {
    if !Meets(ops, SKIP_CTX + Skipped(cus, Left(x, y)) + Skipped(cus, Above(x, y))) || ops[0].bin == 0 then None
    else Some(Decoding(cus + map p | p in Blocks(g, x, y, k) :: Cu(depth, true), ops[1..]))
  }

  /** coding_quadtree(): a square off the picture codes nothing, one across its edge splits, any other says. */
  function DecodeTree(g: Geometry, cus: map<Pos, Cu>, x: nat, y: nat, k: nat, depth: nat, ops: seq<Op>)
      : (r: Option<Decoding>)
    ensures r.Some? ==> |r.value.rest| <= |ops|
    decreases k, 5
  {
    if Outside(g, x, y) then Some(Decoding(cus, ops))
    else if !Inside(g, x, y, k) then DecodeQuads(g, cus, x, y, k, depth, ops, 0)
    else if k == 0 then DecodeUnit(g, cus, x, y, k, depth, ops)
    else if !Meets(ops, Deeper(cus, Left(x, y), depth) + Deeper(cus, Above(x, y), depth)) then None
    else if ops[0].bin == 1 then DecodeQuads(g, cus, x, y, k, depth, ops[1..], 0)
    else DecodeUnit(g, cus, x, y, k, depth, ops[1..])
  }

  function DecodeQuads(g: Geometry, cus: map<Pos, Cu>, x: nat, y: nat, k: nat, depth: nat, ops: seq<Op>, j: nat)
      : (r: Option<Decoding>)
    requires k > 0 && j <= 4
    ensures r.Some? ==> |r.value.rest| <= |ops|
    decreases k, 4 - j
  {
    if j == 4 then Some(Decoding(cus, ops))
    else
      var h := Pow2(k - 1);
      match DecodeTree(g, cus, QuadX(x, h, j), QuadY(y, h, j), k - 1, depth + 1, ops)
      case None => None
      case Some(d) => DecodeQuads(g, d.cus, x, y, k, depth, d.rest, j + 1)
  }

  // ---- the two agree ------------------------------------------------------------------------

  /** The decoded units are skips whose depths the grid holds. */
  ghost predicate Agrees(g: Geometry, cus: map<Pos, Cu>, grid: map<Pos, nat>) {
    forall p :: p in cus ==> InPicture(g, p) && cus[p].skip && Depth(grid, p) == cus[p].depth
  }

  /** The square's blocks have been added to cus, and nothing else has changed. */
  ghost predicate Grown(g: Geometry, cus: map<Pos, Cu>, more: map<Pos, Cu>, x: nat, y: nat, k: nat) {
    && (forall p: Pos :: p in more <==> p in cus || (InBlock(p, x, y, k) && InPicture(g, p)))
    && forall p: Pos :: p in cus ==> more[p] == cus[p]
  }

  /** Directly left of or above the square. */
  predicate Beside(p: Pos, x: nat, y: nat, k: nat) {
    (p.x == x - 1 && y <= p.y < y + Pow2(k)) || (p.y == y - 1 && x <= p.x < x + Pow2(k))
  }

  /** Along the square's left and upper edges, what the writer calls available is what has been decoded. */
  ghost predicate EdgesKnown(g: Geometry, first: nat, cur: nat, cus: map<Pos, Cu>, x: nat, y: nat, k: nat) {
    forall p: Pos :: Beside(p, x, y, k) ==> (NbAvail(g, first, cur, p) <==> p in cus)
  }

  ghost predicate Fresh(cus: map<Pos, Cu>, x: nat, y: nat, k: nat) {
    forall p: Pos :: InBlock(p, x, y, k) ==> p !in cus
  }

  /** The square lies in the current CTU. */
  ghost predicate InCtu(g: Geometry, cur: nat, x: nat, y: nat, k: nat) {
    forall p: Pos :: InBlock(p, x, y, k) && InPicture(g, p) ==> Addr(g, p) == cur
  }

  ghost predicate Starts(g: Geometry, first: nat, cur: nat, cus: map<Pos, Cu>, grid: map<Pos, nat>, x: nat, y: nat,
                         k: nat) {
    && first <= cur && InCtu(g, cur, x, y, k) && EdgesKnown(g, first, cur, cus, x, y, k)
    && Fresh(cus, x, y, k) && Agrees(g, cus, grid)
  }

  /** The decoding consumed exactly the emitted bins and added exactly the square. */
  ghost predicate Consumed(g: Geometry, cus: map<Pos, Cu>, d: Option<Decoding>, grid: map<Pos, nat>, rest: seq<Op>,
                           x: nat, y: nat, k: nat) {
    d.Some? && d.value.rest == rest && Grown(g, cus, d.value.cus, x, y, k) && Agrees(g, d.value.cus, grid)
  }

  /** A neighbour gives writer and decoder the same contribution. */
  lemma NeighbourAgrees(g: Geometry, first: nat, cur: nat, cus: map<Pos, Cu>, grid: map<Pos, nat>,
                        x: nat, y: nat, k: nat, depth: nat, p: Pos)
    requires EdgesKnown(g, first, cur, cus, x, y, k) && Agrees(g, cus, grid) && Beside(p, x, y, k)
    ensures One(NbAvail(g, first, cur, p) && Depth(grid, p) > depth) == Deeper(cus, p, depth)
    ensures One(NbAvail(g, first, cur, p)) == Skipped(cus, p)
  {
  }

  lemma UnitGrows(g: Geometry, cus: map<Pos, Cu>, grid: map<Pos, nat>, x: nat, y: nat, k: nat, depth: nat)
    requires Fresh(cus, x, y, k) && Agrees(g, cus, grid)
    ensures var more := cus + map p | p in Blocks(g, x, y, k) :: Cu(depth, true);
      Grown(g, cus, more, x, y, k) && Agrees(g, more, Mark(g, grid, x, y, k, depth))
  {
    hide Pow2, InBlock, InPicture;
  }

  lemma UnitDecodes(g: Geometry, first: nat, cur: nat, cus: map<Pos, Cu>, grid: map<Pos, nat>,
                    x: nat, y: nat, k: nat, depth: nat, rest: seq<Op>)
    requires Starts(g, first, cur, cus, grid, x, y, k) && !Outside(g, x, y) && Inside(g, x, y, k)
    ensures Consumed(g, cus, DecodeTree(g, cus, x, y, k, depth, UnitOps(g, first, cur, grid, x, y, k, depth) + rest),
                     Mark(g, grid, x, y, k, depth), rest, x, y, k)
  {
    PowPositive(k);
    assert Beside(Left(x, y), x, y, k) && Beside(Above(x, y), x, y, k);
    NeighbourAgrees(g, first, cur, cus, grid, x, y, k, depth, Left(x, y));
    NeighbourAgrees(g, first, cur, cus, grid, x, y, k, depth, Above(x, y));
    UnitGrows(g, cus, grid, x, y, k, depth);
    hide Addr, DecodeQuads, Pow2, Grown, Agrees, Mark, InCtu, EdgesKnown, Fresh, NbAvail, Deeper, Skipped, Left, Above;
    hide Depth, One;
    var skip := Code(SKIP_CTX + SkipInc(g, first, cur, x, y), 1);
    var ops := UnitOps(g, first, cur, grid, x, y, k, depth) + rest;
    assert [skip][0] == skip;
    SkipNext(skip, rest);
    if k > 0 {
      var split := Code(SplitInc(g, first, cur, grid, x, y, depth), 0);
      TwoNext(split, skip, rest);
    }
  }

  lemma SkipNext(op: Op, rest: seq<Op>)
    ensures var s := [] + [op] + rest; s != [] && s[0] == op && s[1..] == rest
    ensures var s := [op] + rest; s != [] && s[0] == op && s[1..] == rest
  {
  }

  lemma TwoNext(first: Op, second: Op, rest: seq<Op>)
    ensures var s := [first] + [second] + rest; s != [] && s[0] == first && s[1..] == [second] + rest
  {
  }

  /** Quadrants below j. */
  predicate Covered(p: Pos, x: nat, y: nat, k: nat, j: nat)
    requires k > 0
  {
    var h := Pow2(k - 1);
    || (j > 0 && InBlock(p, x, y, k - 1)) || (j > 1 && InBlock(p, x + h, y, k - 1))
    || (j > 2 && InBlock(p, x, y + h, k - 1)) || (j > 3 && InBlock(p, x + h, y + h, k - 1))
  }

  ghost predicate GrownTo(g: Geometry, cus: map<Pos, Cu>, more: map<Pos, Cu>, x: nat, y: nat, k: nat, j: nat)
    requires k > 0
  {
    && (forall p: Pos :: p in more <==> p in cus || (Covered(p, x, y, k, j) && InPicture(g, p)))
    && forall p: Pos :: p in cus ==> more[p] == cus[p]
  }

  /** Quadrant j starts as its square did, once the quadrants before it are decoded. */
  lemma QuadStarts(g: Geometry, first: nat, cur: nat, cus: map<Pos, Cu>, more: map<Pos, Cu>, grid: map<Pos, nat>,
                   grid': map<Pos, nat>, x: nat, y: nat, k: nat, j: nat)
    requires Starts(g, first, cur, cus, grid, x, y, k) && k > 0 && j < 4
    requires GrownTo(g, cus, more, x, y, k, j) && Agrees(g, more, grid')
    ensures Starts(g, first, cur, more, grid', QuadX(x, Pow2(k - 1), j), QuadY(y, Pow2(k - 1), j), k - 1)
  {
    hide Addr;
    PowPositive(k - 1);
    var h := Pow2(k - 1);
    assert Pow2(k) == 2 * h;
    hide Pow2;
    var qx, qy := QuadX(x, h, j), QuadY(y, h, j);
    forall p: Pos | Beside(p, qx, qy, k - 1) ensures NbAvail(g, first, cur, p) <==> p in more {
      assert InBlock(p, x, y, k) ==> Covered(p, x, y, k, j);
      assert !InBlock(p, x, y, k) ==> Beside(p, x, y, k) && !Covered(p, x, y, k, j);
    }
    forall p: Pos | InBlock(p, qx, qy, k - 1) ensures p !in more && InBlock(p, x, y, k) {
      assert !Covered(p, x, y, k, j);
    }
  }

  lemma QuadGrows(g: Geometry, cus: map<Pos, Cu>, more: map<Pos, Cu>, next: map<Pos, Cu>, x: nat, y: nat, k: nat,
                  j: nat)
    requires k > 0 && j < 4 && GrownTo(g, cus, more, x, y, k, j)
    requires Grown(g, more, next, QuadX(x, Pow2(k - 1), j), QuadY(y, Pow2(k - 1), j), k - 1)
    ensures GrownTo(g, cus, next, x, y, k, j + 1)
  {
    hide Pow2;
  }

  lemma AllQuads(g: Geometry, cus: map<Pos, Cu>, more: map<Pos, Cu>, x: nat, y: nat, k: nat)
    requires k > 0 && GrownTo(g, cus, more, x, y, k, 4)
    ensures Grown(g, cus, more, x, y, k)
  {
    assert Pow2(k) == 2 * Pow2(k - 1);
    hide Pow2;
    assert forall p: Pos :: Covered(p, x, y, k, 4) <==> InBlock(p, x, y, k);
  }

  lemma NoQuads(g: Geometry, cus: map<Pos, Cu>, x: nat, y: nat, k: nat)
    requires k > 0
    ensures GrownTo(g, cus, cus, x, y, k, 0)
  {
  }

  /**
   * From any square of the current CTU on, a decoder that chooses its contexts by the units it has decoded
   * meets the writer's context at every bin, and adds exactly the square's blocks, as skipped units.
   */
  lemma {:induction false} TreeDecodes(g: Geometry, first: nat, cur: nat, cus: map<Pos, Cu>, grid: map<Pos, nat>,
                                       x: nat, y: nat, k: nat, depth: nat, rest: seq<Op>)
    requires Starts(g, first, cur, cus, grid, x, y, k)
    ensures var e := EmitTree(g, first, cur, grid, x, y, k, depth);
      Consumed(g, cus, DecodeTree(g, cus, x, y, k, depth, e.ops + rest), e.grid, rest, x, y, k)
    decreases k, 5
  {
    if Outside(g, x, y) {
      assert [] + rest == rest;
      assert forall p: Pos :: !(InBlock(p, x, y, k) && InPicture(g, p));
    } else if Inside(g, x, y, k) {
      UnitDecodes(g, first, cur, cus, grid, x, y, k, depth, rest);
    } else {
      NoQuads(g, cus, x, y, k);
      QuadsDecode(g, first, cur, cus, grid, cus, grid, x, y, k, depth, rest, 0);
    }
  }

  lemma {:induction false} QuadsDecode(g: Geometry, first: nat, cur: nat, cus: map<Pos, Cu>, grid: map<Pos, nat>,
                                       more: map<Pos, Cu>, grid': map<Pos, nat>,
                                       x: nat, y: nat, k: nat, depth: nat, rest: seq<Op>, j: nat)
    requires Starts(g, first, cur, cus, grid, x, y, k) && k > 0 && j <= 4
    requires GrownTo(g, cus, more, x, y, k, j) && Agrees(g, more, grid')
    ensures var e := EmitQuads(g, first, cur, grid', x, y, k, depth, j);
      Consumed(g, cus, DecodeQuads(g, more, x, y, k, depth, e.ops + rest, j), e.grid, rest, x, y, k)
    decreases k, 4 - j
  {
    hide Starts, GrownTo, Grown, Agrees, EmitTree, DecodeTree, Pow2;
    if j == 4 {
      AllQuads(g, cus, more, x, y, k);
      assert [] + rest == rest;
    } else {
      var h := Pow2(k - 1);
      var qx, qy := QuadX(x, h, j), QuadY(y, h, j);
      QuadStarts(g, first, cur, cus, more, grid, grid', x, y, k, j);
      var a := EmitTree(g, first, cur, grid', qx, qy, k - 1, depth + 1);
      var b := EmitQuads(g, first, cur, a.grid, x, y, k, depth, j + 1);
      TreeDecodes(g, first, cur, more, grid', qx, qy, k - 1, depth + 1, b.ops + rest);
      assert a.ops + b.ops + rest == a.ops + (b.ops + rest);
      var d := DecodeTree(g, more, qx, qy, k - 1, depth + 1, a.ops + (b.ops + rest)).value;
      QuadGrows(g, cus, more, d.cus, x, y, k, j);
      QuadsDecode(g, first, cur, cus, grid, d.cus, a.grid, x, y, k, depth, rest, j + 1);
    }
  }
}
