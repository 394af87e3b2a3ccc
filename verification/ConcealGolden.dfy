/**
 * The unit the repository pins byte by byte: slice 1 of picture 3 of a 192 by 192 stream with three slices of a CTU row each,
 * made with slice 0 as the donor (tests/hevc_conceal_vector.h).
 */
module ConcealGolden {
  import opened Bytes
  import opened Bits
  import Cabac
  import CabacLaws
  import opened NalUnit
  import opened SliceSyntax
  import opened SliceParser
  import opened SliceWriter
  import opened SliceHeader
  import opened CodingTree
  import opened SlicePlan
  import opened SlicePayload
  import opened ConcealSlice
  import opened ConcealCases

  /** The stream's parameter sets. */
  const TINY_SPS := Sps(192, 192, 8, 3, 6, true, false, false, 0, 26, TINY_DELTAS, TINY_DELTAS, [], 3, 9, 4)

  const TINY_DELTAS: seq<U16> := [4, 4, 4, 4, 4, 4, 4, 4] + [1, 2, 3, 4, 4, 4, 4, 4] + [4, 4, 4, 4, 4, 4, 4, 4] + [4, 0]

  const TINY_PPS := Pps(0, false, false, 0, true, 4, 4, 26, false, false, false, false, false, false, true, false, false, false, false)

  /** How the donor's RBSP begins. */
  const BEGINNING: seq<Byte> := [0xD0, 0x1D, 0x45, 0xA0, 0x8B]

  const BITS: seq<Bit> :=
    [1, 1, 0, 1, 0, 0, 0, 0] + [0, 0, 0, 1, 1, 1, 0, 1] + [0, 1, 0, 0, 0, 1, 0, 1] + [1, 0, 1, 0, 0, 0, 0, 0] + [1, 0, 0, 0, 1, 0, 1, 1]

  const TINY_HEADER := Header(Head(true, 0, KIND_P), Picture(3, true, 13, 19, 3, false), Lists(3, 0), 17)

  predicate Begins(rbsp: seq<Byte>) {
    |rbsp| >= 5 && rbsp[..5] == BEGINNING
  }

  function TinyDonor(rbsp: seq<Byte>): Slice {
    Slice(2, 1, 0, rbsp, TINY_HEADER)
  }

  /** The three CTUs of the second row. */
  function TinyJob(rbsp: seq<Byte>): Job {
    Job(TINY_SPS, TINY_PPS, TinyDonor(rbsp), Wanted(3, false, None), 3)
  }

  // ---- its slice data ------------------------------------------------------------------------------------

  /** Three units, not split and skipped, each but the first beside a skipped one. */
  const ROW: seq<Cabac.Op> := [Cabac.Code(0, 0), Cabac.Code(3, 1), Cabac.Continue, Cabac.Code(0, 0), Cabac.Code(4, 1), Cabac.Continue, Cabac.Code(0, 0), Cabac.Code(4, 1)]

  lemma Op0()
    ensures Cabac.AfterBin(Cabac.Enc(0, 510, 0, true, []), Cabac.Ctx(32, 0), 0) == Cabac.Enc(0, 465, 0, true, []) && Cabac.NextCtx(Cabac.Ctx(32, 0), 0) == Cabac.Ctx(33, 0)
  {
    var e0 := Cabac.Enc(0, 465, 0, true, []);
    assert Cabac.Narrowed(Cabac.Enc(0, 510, 0, true, []), Cabac.Ctx(32, 0), 0) == e0;
    hide Cabac.Renormed, Cabac.Shifted, Cabac.LPS_TABLE;
    CabacLaws.Renorming(e0);
  }

  lemma Op1()
    ensures Cabac.AfterBin(Cabac.Enc(0, 465, 0, true, []), Cabac.Ctx(0, 1), 1) == Cabac.Enc(0, 450, 0, false, []) && Cabac.NextCtx(Cabac.Ctx(0, 1), 1) == Cabac.Ctx(1, 1)
  {
    var e0 := Cabac.Enc(0, 225, 0, true, []);
    var e1 := Cabac.Enc(0, 450, 0, false, []);
    assert Cabac.Narrowed(Cabac.Enc(0, 465, 0, true, []), Cabac.Ctx(0, 1), 1) == e0;
    assert Cabac.Shifted(e0) == e1;
    hide Cabac.Renormed, Cabac.Shifted, Cabac.LPS_TABLE;
    CabacLaws.Renorming(e1);
    CabacLaws.Renorming(e0);
  }

  lemma Op2()
    ensures Cabac.AfterContinue(Cabac.Enc(0, 450, 0, false, [])) == Cabac.Enc(0, 448, 0, false, [])
  {
    var e0 := Cabac.Enc(0, 448, 0, false, []);
    hide Cabac.Renormed, Cabac.Shifted, Cabac.LPS_TABLE;
    CabacLaws.Renorming(e0);
  }

  lemma Op3()
    ensures Cabac.AfterBin(Cabac.Enc(0, 448, 0, false, []), Cabac.Ctx(33, 0), 0) == Cabac.Enc(0, 405, 0, false, []) && Cabac.NextCtx(Cabac.Ctx(33, 0), 0) == Cabac.Ctx(34, 0)
  {
    var e0 := Cabac.Enc(0, 405, 0, false, []);
    assert Cabac.Narrowed(Cabac.Enc(0, 448, 0, false, []), Cabac.Ctx(33, 0), 0) == e0;
    hide Cabac.Renormed, Cabac.Shifted, Cabac.LPS_TABLE;
    CabacLaws.Renorming(e0);
  }

  lemma Op4()
    ensures Cabac.AfterBin(Cabac.Enc(0, 405, 0, false, []), Cabac.Ctx(18, 1), 1) == Cabac.Enc(0, 324, 0, false, []) && Cabac.NextCtx(Cabac.Ctx(18, 1), 1) == Cabac.Ctx(19, 1)
  {
    var e0 := Cabac.Enc(0, 324, 0, false, []);
    assert Cabac.Narrowed(Cabac.Enc(0, 405, 0, false, []), Cabac.Ctx(18, 1), 1) == e0;
    hide Cabac.Renormed, Cabac.Shifted, Cabac.LPS_TABLE;
    CabacLaws.Renorming(e0);
  }

  lemma Op5()
    ensures Cabac.AfterContinue(Cabac.Enc(0, 324, 0, false, [])) == Cabac.Enc(0, 322, 0, false, [])
  {
    var e0 := Cabac.Enc(0, 322, 0, false, []);
    hide Cabac.Renormed, Cabac.Shifted, Cabac.LPS_TABLE;
    CabacLaws.Renorming(e0);
  }

  lemma Op6()
    ensures Cabac.AfterBin(Cabac.Enc(0, 322, 0, false, []), Cabac.Ctx(34, 0), 0) == Cabac.Enc(0, 292, 0, false, []) && Cabac.NextCtx(Cabac.Ctx(34, 0), 0) == Cabac.Ctx(35, 0)
  {
    var e0 := Cabac.Enc(0, 292, 0, false, []);
    assert Cabac.Narrowed(Cabac.Enc(0, 322, 0, false, []), Cabac.Ctx(34, 0), 0) == e0;
    hide Cabac.Renormed, Cabac.Shifted, Cabac.LPS_TABLE;
    CabacLaws.Renorming(e0);
  }

  lemma Op7()
    ensures Cabac.AfterBin(Cabac.Enc(0, 292, 0, false, []), Cabac.Ctx(19, 1), 1) == Cabac.Enc(0, 478, 0, false, [0]) && Cabac.NextCtx(Cabac.Ctx(19, 1), 1) == Cabac.Ctx(20, 1)
  {
    var e0 := Cabac.Enc(0, 239, 0, false, []);
    var e1 := Cabac.Enc(0, 478, 0, false, [0]);
    assert Cabac.Narrowed(Cabac.Enc(0, 292, 0, false, []), Cabac.Ctx(19, 1), 1) == e0;
    assert Cabac.Shifted(e0) == e1;
    hide Cabac.Renormed, Cabac.Shifted, Cabac.LPS_TABLE;
    CabacLaws.Renorming(e1);
    CabacLaws.Renorming(e0);
  }

  lemma FlushStarts()
    ensures Cabac.FlushStart(Cabac.Enc(0, 478, 0, false, [0])) == Cabac.Enc(0, 256, 3, false, [0, 0, 1, 1, 1])
  {
    var e0 := Cabac.Enc(476, 2, 0, false, [0]);
    var e1 := Cabac.Enc(440, 4, 1, false, [0]);
    var e2 := Cabac.Enc(368, 8, 2, false, [0]);
    var e3 := Cabac.Enc(224, 16, 3, false, [0]);
    var e4 := Cabac.Enc(448, 32, 0, false, [0, 0, 1, 1, 1]);
    var e5 := Cabac.Enc(384, 64, 1, false, [0, 0, 1, 1, 1]);
    var e6 := Cabac.Enc(256, 128, 2, false, [0, 0, 1, 1, 1]);
    var e7 := Cabac.Enc(0, 256, 3, false, [0, 0, 1, 1, 1]);
    assert Cabac.Shifted(e0) == e1;
    assert Cabac.Shifted(e1) == e2;
    assert Cabac.Shifted(e2) == e3;
    assert Cabac.Shifted(e3) == e4;
    assert Cabac.Shifted(e4) == e5;
    assert Cabac.Shifted(e5) == e6;
    assert Cabac.Shifted(e6) == e7;
    hide Cabac.Renormed, Cabac.Shifted, Cabac.LPS_TABLE;
    CabacLaws.Renorming(e7);
    CabacLaws.Renorming(e6);
    CabacLaws.Renorming(e5);
    CabacLaws.Renorming(e4);
    CabacLaws.Renorming(e3);
    CabacLaws.Renorming(e2);
    CabacLaws.Renorming(e1);
    CabacLaws.Renorming(e0);
  }

  lemma Flushes()
    ensures Cabac.AfterFlush(Cabac.Enc(0, 478, 0, false, [0])).out == [0, 0, 1, 1, 1, 0, 1, 1, 1, 0, 1]
  {
    FlushStarts();
    hide Cabac.FlushStart;
  }

  lemma Spell()
    ensures ROW == [Cabac.Code(0, 0)] + ([Cabac.Code(3, 1)] + ([Cabac.Continue] + ([Cabac.Code(0, 0)] + ([Cabac.Code(4, 1)] + ([Cabac.Continue] + ([Cabac.Code(0, 0)] + ([Cabac.Code(4, 1)] + [])))))))
    ensures Cabac.ENC_START == Cabac.Enc(0, 510, 0, true, [])
  {
  }

  /** Bins whose contexts are among the six. */
  ghost predicate Six(ops: seq<Cabac.Op>) {
    forall i :: 0 <= i < |ops| && ops[i].Code? ==> ops[i].ctx < 6
  }

  lemma SixNone()
    ensures Six([])
  {
  }

  lemma SixPrepend(o: Cabac.Op, ops: seq<Cabac.Op>)
    requires Six(ops) && (o.Code? ==> o.ctx < 6)
    ensures Six([o] + ops)
  {
  }

  lemma SixMeans(ops: seq<Cabac.Op>, ctxs: seq<Cabac.Ctx>)
    requires Six(ops) && |ctxs| == 6
    ensures Cabac.Usable(ops, ctxs)
  {
  }

  lemma BinStep(e: Cabac.Enc, ctxs: seq<Cabac.Ctx>, next: seq<Cabac.Ctx>, i: nat, bin: Bit, ops: seq<Cabac.Op>)
    requires Cabac.Ready(e) && |ctxs| == 6 && i < 6 && Six(ops)
    requires next == ctxs[i := Cabac.NextCtx(ctxs[i], bin)]
    ensures Cabac.Ready(Cabac.AfterBin(e, ctxs[i], bin)) && Cabac.Usable([Cabac.Code(i, bin)] + ops, ctxs) && Cabac.Usable(ops, next)
    ensures Cabac.EncodeAll(e, ctxs, [Cabac.Code(i, bin)] + ops) == Cabac.EncodeAll(Cabac.AfterBin(e, ctxs[i], bin), next, ops)
  {
    hide *;
    SixPrepend(Cabac.Code(i, bin), ops);
    SixMeans([Cabac.Code(i, bin)] + ops, ctxs);
    CabacLaws.BinStep(e, ctxs, i, bin, ops);
  }

  lemma ContinueStep(e: Cabac.Enc, ctxs: seq<Cabac.Ctx>, ops: seq<Cabac.Op>)
    requires Cabac.Ready(e) && |ctxs| == 6 && Six(ops)
    ensures Cabac.Ready(Cabac.AfterContinue(e)) && Cabac.Usable([Cabac.Continue] + ops, ctxs) && Cabac.Usable(ops, ctxs)
    ensures Cabac.EncodeAll(e, ctxs, [Cabac.Continue] + ops) == Cabac.EncodeAll(Cabac.AfterContinue(e), ctxs, ops)
  {
    hide Cabac.Ready, Cabac.AfterContinue, Cabac.LPS_TABLE;
    SixMeans(ops, ctxs);
    SixPrepend(Cabac.Continue, ops);
    SixMeans([Cabac.Continue] + ops, ctxs);
    Cabac.NarrowBounded(e, Cabac.Ctx(0, 0), 0);
    assert ([Cabac.Continue] + ops)[1..] == ops;
  }

  lemma RowCoded()
    ensures Cabac.Ready(Cabac.ENC_START) && Cabac.Usable(ROW, [Cabac.Ctx(32, 0), Cabac.Ctx(5, 0), Cabac.Ctx(5, 1), Cabac.Ctx(0, 1), Cabac.Ctx(18, 1), Cabac.Ctx(32, 1)])
    ensures Cabac.EncodeAll(Cabac.ENC_START, [Cabac.Ctx(32, 0), Cabac.Ctx(5, 0), Cabac.Ctx(5, 1), Cabac.Ctx(0, 1), Cabac.Ctx(18, 1), Cabac.Ctx(32, 1)], ROW).out == [0, 0, 1, 1, 1, 0, 1, 1, 1, 0, 1]
  {
    hide *;
    Cabac.StartReady();
    var r7: seq<Cabac.Op> := [Cabac.Code(4, 1)] + [];
    var r6: seq<Cabac.Op> := [Cabac.Code(0, 0)] + r7;
    var r5: seq<Cabac.Op> := [Cabac.Continue] + r6;
    var r4: seq<Cabac.Op> := [Cabac.Code(4, 1)] + r5;
    var r3: seq<Cabac.Op> := [Cabac.Code(0, 0)] + r4;
    var r2: seq<Cabac.Op> := [Cabac.Continue] + r3;
    var r1: seq<Cabac.Op> := [Cabac.Code(3, 1)] + r2;
    var r0: seq<Cabac.Op> := [Cabac.Code(0, 0)] + r1;
    Spell();
    Op0();
    Op1();
    Op2();
    Op3();
    Op4();
    Op5();
    Op6();
    Op7();
    Flushes();
    SixNone();
    SixPrepend(Cabac.Code(4, 1), []);
    SixPrepend(Cabac.Code(0, 0), r7);
    SixPrepend(Cabac.Continue, r6);
    SixPrepend(Cabac.Code(4, 1), r5);
    SixPrepend(Cabac.Code(0, 0), r4);
    SixPrepend(Cabac.Continue, r3);
    SixPrepend(Cabac.Code(3, 1), r2);
    SixPrepend(Cabac.Code(0, 0), r1);
    BinStep(Cabac.Enc(0, 510, 0, true, []), [Cabac.Ctx(32, 0), Cabac.Ctx(5, 0), Cabac.Ctx(5, 1), Cabac.Ctx(0, 1), Cabac.Ctx(18, 1), Cabac.Ctx(32, 1)], [Cabac.Ctx(33, 0), Cabac.Ctx(5, 0), Cabac.Ctx(5, 1), Cabac.Ctx(0, 1), Cabac.Ctx(18, 1), Cabac.Ctx(32, 1)], 0, 0, r1);
    BinStep(Cabac.Enc(0, 465, 0, true, []), [Cabac.Ctx(33, 0), Cabac.Ctx(5, 0), Cabac.Ctx(5, 1), Cabac.Ctx(0, 1), Cabac.Ctx(18, 1), Cabac.Ctx(32, 1)], [Cabac.Ctx(33, 0), Cabac.Ctx(5, 0), Cabac.Ctx(5, 1), Cabac.Ctx(1, 1), Cabac.Ctx(18, 1), Cabac.Ctx(32, 1)], 3, 1, r2);
    ContinueStep(Cabac.Enc(0, 450, 0, false, []), [Cabac.Ctx(33, 0), Cabac.Ctx(5, 0), Cabac.Ctx(5, 1), Cabac.Ctx(1, 1), Cabac.Ctx(18, 1), Cabac.Ctx(32, 1)], r3);
    BinStep(Cabac.Enc(0, 448, 0, false, []), [Cabac.Ctx(33, 0), Cabac.Ctx(5, 0), Cabac.Ctx(5, 1), Cabac.Ctx(1, 1), Cabac.Ctx(18, 1), Cabac.Ctx(32, 1)], [Cabac.Ctx(34, 0), Cabac.Ctx(5, 0), Cabac.Ctx(5, 1), Cabac.Ctx(1, 1), Cabac.Ctx(18, 1), Cabac.Ctx(32, 1)], 0, 0, r4);
    BinStep(Cabac.Enc(0, 405, 0, false, []), [Cabac.Ctx(34, 0), Cabac.Ctx(5, 0), Cabac.Ctx(5, 1), Cabac.Ctx(1, 1), Cabac.Ctx(18, 1), Cabac.Ctx(32, 1)], [Cabac.Ctx(34, 0), Cabac.Ctx(5, 0), Cabac.Ctx(5, 1), Cabac.Ctx(1, 1), Cabac.Ctx(19, 1), Cabac.Ctx(32, 1)], 4, 1, r5);
    ContinueStep(Cabac.Enc(0, 324, 0, false, []), [Cabac.Ctx(34, 0), Cabac.Ctx(5, 0), Cabac.Ctx(5, 1), Cabac.Ctx(1, 1), Cabac.Ctx(19, 1), Cabac.Ctx(32, 1)], r6);
    BinStep(Cabac.Enc(0, 322, 0, false, []), [Cabac.Ctx(34, 0), Cabac.Ctx(5, 0), Cabac.Ctx(5, 1), Cabac.Ctx(1, 1), Cabac.Ctx(19, 1), Cabac.Ctx(32, 1)], [Cabac.Ctx(35, 0), Cabac.Ctx(5, 0), Cabac.Ctx(5, 1), Cabac.Ctx(1, 1), Cabac.Ctx(19, 1), Cabac.Ctx(32, 1)], 0, 0, r7);
    BinStep(Cabac.Enc(0, 292, 0, false, []), [Cabac.Ctx(35, 0), Cabac.Ctx(5, 0), Cabac.Ctx(5, 1), Cabac.Ctx(1, 1), Cabac.Ctx(19, 1), Cabac.Ctx(32, 1)], [Cabac.Ctx(35, 0), Cabac.Ctx(5, 0), Cabac.Ctx(5, 1), Cabac.Ctx(1, 1), Cabac.Ctx(20, 1), Cabac.Ctx(32, 1)], 4, 1, []);
    CabacLaws.NoMore(Cabac.Enc(0, 478, 0, false, [0]), [Cabac.Ctx(35, 0), Cabac.Ctx(5, 0), Cabac.Ctx(5, 1), Cabac.Ctx(1, 1), Cabac.Ctx(20, 1), Cabac.Ctx(32, 1)]);
  }

  lemma TinyContexts()
    ensures FreshContexts(43) == [Cabac.Ctx(32, 0), Cabac.Ctx(5, 0), Cabac.Ctx(5, 1), Cabac.Ctx(0, 1), Cabac.Ctx(18, 1), Cabac.Ctx(32, 1)]
  {
    hide CtxInit;
    Init43();
  }

  lemma Init43()
    ensures CtxInit(107, 43) == Cabac.Ctx(32, 0) && CtxInit(139, 43) == Cabac.Ctx(5, 0) && CtxInit(126, 43) == Cabac.Ctx(5, 1)
    ensures CtxInit(197, 43) == Cabac.Ctx(0, 1) && CtxInit(185, 43) == Cabac.Ctx(18, 1) && CtxInit(201, 43) == Cabac.Ctx(32, 1)
  {
    Init43Split();
    Init43Skip();
    hide CtxInit;
  }

  lemma Init43Split()
    ensures CtxInit(107, 43) == Cabac.Ctx(32, 0) && CtxInit(139, 43) == Cabac.Ctx(5, 0) && CtxInit(126, 43) == Cabac.Ctx(5, 1)
  {
  }

  lemma Init43Skip()
    ensures CtxInit(197, 43) == Cabac.Ctx(0, 1) && CtxInit(185, 43) == Cabac.Ctx(18, 1) && CtxInit(201, 43) == Cabac.Ctx(32, 1)
  {
  }

  const TINY := Geometry(24, 24, 3, 3)

  ghost predicate Flat(grid: map<Pos, nat>) {
    forall p :: p in grid ==> grid[p] == 0
  }

  lemma TinySize()
    ensures CtbSize(TINY) == 8 && Pow2(3) == 8
  {
    assert Pow2(3) == 2 * Pow2(2) == 4 * Pow2(1) == 8;
  }

  lemma TinyRoot(cur: nat)
    requires 3 <= cur < 6
    ensures RootX(TINY, cur) == (cur - 3) * 8 && RootY(TINY, cur) == 8
    ensures !NbAvail(TINY, 3, cur, Above((cur - 3) * 8, 8))
    ensures NbAvail(TINY, 3, cur, Left((cur - 3) * 8, 8)) <==> cur > 3
  {
    TinySize();
    hide CtbSize, Pow2;
    assert cur / 3 == 1 && cur % 3 == cur - 3;
    assert Addr(TINY, Above((cur - 3) * 8, 8)) == cur - 3;
    if cur > 3 { assert Addr(TINY, Left((cur - 3) * 8, 8)) == cur - 1; }
  }

  lemma TinyUnitOps(cur: nat, grid: map<Pos, nat>)
    requires 3 <= cur < 6 && Flat(grid)
    ensures UnitOps(TINY, 3, cur, grid, (cur - 3) * 8, 8, 3, 0) == [Cabac.Code(0, 0), Cabac.Code(if cur == 3 then 3 else 4, 1)]
  {
    TinyRoot(cur);
    hide NbAvail, RootX, RootY, TINY;
    assert SplitInc(TINY, 3, cur, grid, (cur - 3) * 8, 8, 0) == 0;
    assert [Cabac.Code(0, 0)] + [Cabac.Code(if cur == 3 then 3 else 4, 1)] == [Cabac.Code(0, 0), Cabac.Code(if cur == 3 then 3 else 4, 1)];
  }

  /** A CTU of the second row. */
  lemma TinyCtu(cur: nat, grid: map<Pos, nat>)
    requires 3 <= cur < 6 && Flat(grid)
    ensures var e := EmitCtu(TINY, 3, cur, grid);
            e.ops == [Cabac.Code(0, 0), Cabac.Code(if cur == 3 then 3 else 4, 1)] && Flat(e.grid)
  {
    TinySize();
    TinyRoot(cur);
    TinyUnitOps(cur, grid);
    MarkFlat(grid, (cur - 3) * 8, 8);
    hide Pow2, CtbSize, Mark, NbAvail, UnitOps, RootX, RootY, Flat;
  }

  lemma MarkFlat(grid: map<Pos, nat>, x: nat, y: nat)
    requires Flat(grid)
    ensures Flat(Mark(TINY, grid, x, y, 3, 0))
  {
    hide Blocks;
  }

  lemma TinyWalk(n: nat)
    requires n <= 2
    ensures var w := WalkTo(TINY, false, 43, 3, n);
            w.finished == [] && w.start == FreshContexts(43) && Flat(w.grid)
            && w.ops == if n == 0 then [] else if n == 1 then ROW[..3] else ROW[..6]
  {
    hide EmitCtu, FreshContexts, CtxsAfter;
    if n > 0 {
      TinyWalk(n - 1);
      TinyCtu(3 + n - 1, WalkTo(TINY, false, 43, 3, n - 1).grid);
      assert ROW[..3] == [] + [Cabac.Code(0, 0), Cabac.Code(3, 1)] + [Cabac.Continue];
      assert ROW[..6] == ROW[..3] + [Cabac.Code(0, 0), Cabac.Code(4, 1)] + [Cabac.Continue];
    }
  }

  lemma TinyPlan()
    ensures Plan(TINY, false, 43, 3, 3) == [Segment(FreshContexts(43), ROW)] && Sound(Segment(FreshContexts(43), ROW))
  {
    hide EmitCtu, FreshContexts, WalkTo;
    TinyWalk(2);
    var w := WalkTo(TINY, false, 43, 3, 2);
    TinyCtu(5, w.grid);
    assert ROW == ROW[..6] + [Cabac.Code(0, 0), Cabac.Code(4, 1)];
    assert [] + [Segment(FreshContexts(43), ROW)] == [Segment(FreshContexts(43), ROW)];
  }

  lemma TinyOut()
    ensures Sound(Segment(FreshContexts(43), ROW))
    ensures SegmentOut(Segment(FreshContexts(43), ROW)) == [0, 0, 1, 1, 1, 0, 1, 1, 1, 0, 1]
  {
    hide *;
    TinyPlan();
    TinyContexts();
    OutIs(Segment(FreshContexts(43), ROW));
    RowCoded();
  }

  lemma TinyPayload()
    ensures AllSound([Segment(FreshContexts(43), ROW)])
    ensures PayloadBytes([Segment(FreshContexts(43), ROW)]) == [0x3B, 0xA0]
  {
    hide *;
    TinyOut();
    var s := Segment(FreshContexts(43), ROW);
    AlignedIs([0, 0, 1, 1, 1, 0, 1, 1, 1, 0, 1], [0, 0, 0, 0, 0]);
    assert [0, 0, 1, 1, 1, 0, 1, 1] + [1, 0, 1, 0, 0, 0, 0, 0] == [0, 0, 1, 1, 1, 0, 1, 1, 1, 0, 1] + [0, 0, 0, 0, 0];
    SegmentAligned(s);
    OneSegmentBits(s);
    PayloadIs([s]);
    TinyPacked();
  }

  lemma TinyPacked()
    ensures Packed([0, 0, 1, 1, 1, 0, 1, 1] + [1, 0, 1, 0, 0, 0, 0, 0]) == [0x3B, 0xA0]
  {
    hide Packed;
    var rest: seq<Bit> := [1, 0, 1, 0, 0, 0, 0, 0];
    PackedStep([0, 0, 1, 1, 1, 0, 1, 1], rest);
    PackedStep(rest, []);
    assert rest + [] == rest;
  }

  // ---- its header ----------------------------------------------------------------------------------------

  lemma TinyBits(rbsp: seq<Byte>)
    requires Begins(rbsp)
    ensures |Unpacked(rbsp)| >= 40 && Unpacked(rbsp)[..40] == BITS
  {
    forall p | 0 <= p < 40 ensures Unpacked(rbsp)[p] == BITS[p] {
      var s := BITS[8 * (p / 8)..8 * (p / 8) + 8];
      assert s[p % 8] == BITS[p];
      assert rbsp[p / 8] == rbsp[..5][p / 8];
      TinyOctet(p / 8);
      ByteBits(s, p % 8);
      hide ByteOf, ShiftRight;
    }
  }

  lemma TinyOctet(n: nat)
    requires n < 5
    ensures ByteOf(BITS[8 * n..8 * n + 8]) == BEGINNING[n]
  {
    match n {
      case 0 => assert BITS[0..8] == [1, 1, 0, 1, 0, 0, 0, 0];
      case 1 => assert BITS[8..16] == [0, 0, 0, 1, 1, 1, 0, 1];
      case 2 => assert BITS[16..24] == [0, 1, 0, 0, 0, 1, 0, 1];
      case 3 => assert BITS[24..32] == [1, 0, 1, 0, 0, 0, 0, 0];
      case 4 => assert BITS[32..40] == [1, 0, 0, 0, 1, 0, 1, 1];
    }
  }

  lemma Zeros5()
    ensures Binary(0, 0) == [] && Binary(0, 1) == [0] && Binary(0, 2) == [0, 0] && Binary(0, 4) == [0, 0, 0, 0]
    ensures Binary(0, 5) == [0, 0, 0, 0, 0] && Binary(0, 6) == [0, 0, 0, 0, 0, 0]
  {
    assert Binary(0, 3) == [0, 0, 0] by { assert Binary(0, 2) == [0, 0] by { assert Binary(0, 1) == [0]; } }
    assert Binary(0, 4) == [0, 0, 0, 0];
    assert Binary(0, 5) == [0, 0, 0, 0, 0];
  }

  lemma Threes()
    ensures Binary(3, 4) == [0, 0, 1, 1] && Binary(3, 8) == [0, 0, 0, 0, 0, 0, 1, 1]
  {
    Zeros5();
    assert Binary(1, 3) == Binary(0, 2) + [1];
    assert Binary(3, 4) == Binary(1, 3) + [1];
    assert Binary(1, 7) == Binary(0, 6) + [1];
    assert Binary(3, 8) == Binary(1, 7) + [1];
  }

  lemma ThirtyFour()
    ensures Binary(34, 6) == [1, 0, 0, 0, 1, 0] && Log2(34) == 5
  {
    assert Binary(34, 6) == Binary(17, 5) + [0];
    assert Binary(17, 5) == Binary(8, 4) + [1];
    assert Binary(8, 4) == Binary(4, 3) + [0];
    assert Binary(4, 3) == Binary(2, 2) + [0];
    assert Binary(2, 2) == Binary(1, 1) + [0];
    assert Binary(1, 1) == [] + [1];
    assert Log2(34) == 1 + Log2(17) && Log2(17) == 1 + Log2(8) && Log2(8) == 1 + Log2(4) && Log2(4) == 1 + Log2(2);
  }

  lemma TinyWords()
    ensures Binary(3, 4) == [0, 0, 1, 1] && Binary(3, 8) == [0, 0, 0, 0, 0, 0, 1, 1]
    ensures SignedGolomb(17) == [0, 0, 0, 0, 0, 1, 0, 0, 0, 1, 0]
  {
    Zeros5();
    Threes();
    ThirtyFour();
    hide Binary, Log2;
  }

  lemma TinyHead()
    ensures HeadBits(TINY_SPS, TINY_PPS, 0, Wanted(3, false, None)) == [0] + [1] + [0, 0, 1, 1] + [0, 1, 0]
  {
    CodeWords();
    Threes();
    Zeros5();
    hide ExpGolomb, Log2, Binary, TINY_DELTAS;
    assert Binary(0, 0) == [];
  }

  lemma TinyLists()
    ensures ListBits(TINY_PPS, TINY_HEADER) == [1, 1] + [0] + [0, 0, 1, 0, 1]
  {
    CodeWords();
    hide ExpGolomb, Log2, Binary;
  }

  lemma TinyBlock(rbsp: seq<Byte>)
    requires Begins(rbsp)
    ensures DonorBlock(TinyDonor(rbsp)) == [1, 0, 1, 0, 1, 0]
  {
    TinyBits(rbsp);
    hide Unpacked;
    assert Unpacked(rbsp)[13..19] == Unpacked(rbsp)[..40][13..19];
    assert BITS[13..19] == [1, 0, 1, 0, 1, 0];
  }

  lemma TinyPrefix(rbsp: seq<Byte>)
    requires Begins(rbsp)
    ensures Sized(TinyJob(rbsp))
    ensures Prefix(TinyJob(rbsp))
      == [0] + [1] + [0, 0, 1, 1] + [0, 1, 0] + ([0, 0, 0, 0, 0, 0, 1, 1] + [1, 0, 1, 0, 1, 0]) + [0, 0] + ([1, 1] + [0] + [0, 0, 1, 0, 1])
         + [0, 0, 0, 0, 0, 1, 0, 0, 0, 1, 0]
  {
    TinyHead();
    TinyWords();
    TinyLists();
    TinyBlock(rbsp);
    hide HeadBits, ListBits, DonorBlock, SignedGolomb, Binary, Unpacked, TINY_DELTAS;
    assert PictureBits(TINY_SPS, 3, [1, 0, 1, 0, 1, 0], false) == [0, 0, 0, 0, 0, 0, 1, 1] + [1, 0, 1, 0, 1, 0];
  }

  const TINY_BITS: seq<Bit> :=
    [0, 1, 0, 0, 1, 1, 0, 1] + ([0, 0, 0, 0, 0, 0, 0, 1] + ([1, 1, 0, 1, 0, 1, 0, 0] + ([0, 1, 1, 0, 0, 0, 1, 0]
    + ([1, 0, 0, 0, 0, 0, 1, 0] + [0, 0, 1, 0, 0, 1, 0, 0]))))

  lemma TinySpelled()
    ensures [0] + [1] + [0, 0, 1, 1] + [0, 1, 0] + ([0, 0, 0, 0, 0, 0, 1, 1] + [1, 0, 1, 0, 1, 0]) + [0, 0] + ([1, 1] + [0] + [0, 0, 1, 0, 1])
            + [0, 0, 0, 0, 0, 1, 0, 0, 0, 1, 0] + [0] + [1]
         == TINY_BITS[..46]
  {
  }

  lemma TinyTail(j: Job)
    requires Sized(j) && j.pps == TINY_PPS
    ensures Unaligned(j) == Prefix(j) + [0] + [1]
  {
    hide Prefix, Entries;
    assert TailBits(j.pps, Entries(j)) == [0];
  }

  lemma TinyHeaderBytes(rbsp: seq<Byte>)
    requires Begins(rbsp)
    ensures Sized(TinyJob(rbsp)) && HeaderBytes(TinyJob(rbsp)) == [0x4D, 0x01, 0xD4, 0x62, 0x82, 0x24]
  {
    hide *;
    TinyPrefix(rbsp);
    TinyParts(rbsp);
    TinyTail(TinyJob(rbsp));
    TinySpelled();
    TinyAligned(TinyJob(rbsp));
    TinyOctets();
  }

  lemma TinyAligned(j: Job)
    requires Sized(j) && Unaligned(j) == TINY_BITS[..46]
    ensures HeaderBytes(j) == Packed(TINY_BITS)
  {
    hide Unaligned, Aligned;
    AlignedIs(TINY_BITS[..46], TINY_BITS[46..]);
    assert TINY_BITS[..46] + TINY_BITS[46..] == TINY_BITS;
  }

  lemma TinyOctets()
    ensures Packed(TINY_BITS) == [0x4D, 0x01, 0xD4, 0x62, 0x82, 0x24]
  {
    hide Packed;
    var a: seq<Bit>, b: seq<Bit>, c: seq<Bit> := [0, 1, 0, 0, 1, 1, 0, 1], [0, 0, 0, 0, 0, 0, 0, 1], [1, 1, 0, 1, 0, 1, 0, 0];
    var d: seq<Bit>, e: seq<Bit>, f: seq<Bit> := [0, 1, 1, 0, 0, 0, 1, 0], [1, 0, 0, 0, 0, 0, 1, 0], [0, 0, 1, 0, 0, 1, 0, 0];
    PackedStep(a, b + (c + (d + (e + f))));
    PackedStep(b, c + (d + (e + f)));
    PackedStep(c, d + (e + f));
    PackedStep(d, e + f);
    PackedStep(e, f);
    PackedStep(f, []);
    assert f + [] == f;
  }

  lemma TinyParts(rbsp: seq<Byte>)
    requires Begins(rbsp)
    ensures var j := TinyJob(rbsp);
            && Sized(j) && j.pps == TINY_PPS && j.donor.header0 == 2 && j.donor.header1 == 1 && HeaderZeros(j.donor) == 0
            && j.want.address == 3 && j.count == 3 && !j.pps.wpp && j.pps.initQp + j.donor.header.qpDelta == 43 && GeometryOf(j.sps) == TINY
  {
    assert ShiftRight(192, 3) == 24 by { assert ShiftRight(192, 3) == ShiftRight(96, 2) == ShiftRight(48, 1) == ShiftRight(24, 0); }
  }

  lemma TinyAccepted(rbsp: seq<Byte>)
    requires Begins(rbsp)
    ensures Accepted(TinyJob(rbsp))
  {
    TinyParts(rbsp);
    TinySize();
    assert Pow2(3) == 8 && BitsFor(9) == 4;
    hide GeometryOf, Pow2;
  }

  lemma Spare(a: Byte, s: seq<Byte>)
    requires a > 0 && Escaped(0, s) == s
    ensures Escaped(0, [a] + s) == [a] + s
  {
    assert ([a] + s)[1..] == s;
  }

  lemma TinyEscaped()
    ensures Escaped(0, [0x4D, 0x01, 0xD4, 0x62, 0x82, 0x24, 0x3B, 0xA0]) == [0x4D, 0x01, 0xD4, 0x62, 0x82, 0x24, 0x3B, 0xA0]
  {
    var s: seq<Byte> := [0xD4, 0x62, 0x82, 0x24, 0x3B, 0xA0];
    assert Escaped(0, []) == [];
    hide Escaped;
    Spare(0xA0, []);
    Spare(0x3B, [0xA0]);
    Spare(0x24, [0x3B, 0xA0]);
    Spare(0x82, [0x24, 0x3B, 0xA0]);
    Spare(0x62, [0x82, 0x24, 0x3B, 0xA0]);
    assert [0xD4] + [0x62, 0x82, 0x24, 0x3B, 0xA0] == s;
    assert [0x62] + [0x82, 0x24, 0x3B, 0xA0] == [0x62, 0x82, 0x24, 0x3B, 0xA0] && [0x82] + [0x24, 0x3B, 0xA0] == [0x82, 0x24, 0x3B, 0xA0];
    assert [0x24] + [0x3B, 0xA0] == [0x24, 0x3B, 0xA0] && [0x3B] + [0xA0] == [0x3B, 0xA0] && [0xA0] + [] == [0xA0];
    Spare(0xD4, [0x62, 0x82, 0x24, 0x3B, 0xA0]);
    Spare(0x01, s);
    Spare(0x4D, [0x01] + s);
    assert [0x4D] + ([0x01] + s) == [0x4D, 0x01, 0xD4, 0x62, 0x82, 0x24, 0x3B, 0xA0];
  }

  /** The golden unit, start code included. */
  lemma TinyUnit(rbsp: seq<Byte>)
    requires Begins(rbsp)
    ensures var j := TinyJob(rbsp);
            && Accepted(j)
            && [0, 0, 0, 1, j.donor.header0, j.donor.header1] + Escaped(HeaderZeros(j.donor), Rbsp(j))
               == [0x00, 0x00, 0x00, 0x01, 0x02, 0x01, 0x4D, 0x01, 0xD4, 0x62, 0x82, 0x24, 0x3B, 0xA0]
  {
    hide *;
    var j := TinyJob(rbsp);
    TinyAccepted(rbsp);
    TinyParts(rbsp);
    TinyHeaderBytes(rbsp);
    PlanOf(j);
    TinyPlan();
    TinyPayload();
    RbspParts(j);
    TinyEscaped();
    assert [0x4D, 0x01, 0xD4, 0x62, 0x82, 0x24] + [0x3B, 0xA0] == [0x4D, 0x01, 0xD4, 0x62, 0x82, 0x24, 0x3B, 0xA0];
  }

  // ---- the donor parses ------------------------------------------------------------------------------------

  lemma Takes(b: seq<Bit>, pos: nat, v: nat, n: nat)
    requires v < Pow2(n) && Holds(b, pos, Binary(v, n))
    ensures TakeU(b, pos, n) == Done(Step(v, pos + n))
  {
    hide Value, Pow2;
    URoundTrip(b, pos, v, n);
  }

  lemma TakesSe(b: seq<Bit>, pos: nat, v: int)
    requires -0x4000_0000 < v < 0x4000_0000 && Holds(b, pos, SignedGolomb(v))
    ensures TakeSe(b, pos) == Done(Step(v, pos + |SignedGolomb(v)|))
  {
    hide SignedGolomb, ReadSe;
    SeRoundTrip(b, pos, v);
  }

  lemma DonorHeadParses()
    ensures ParseHead(BITS, 1, TINY_SPS, TINY_PPS) == Done(Step(Head(true, 0, KIND_P), 5))
  {
    hide TakeU, TakeUe;
    TakesBit(BITS, 0);
    UeZero(BITS, 1);
    UeShort(BITS, 2);
  }

  lemma TenBits()
    ensures Binary(10, 5) == [0, 1, 0, 1, 0] && BitsFor(26) == 5 && Pow2(5) == 32 && Pow2(8) == 256
  {
    assert Binary(10, 5) == Binary(5, 4) + [0];
    assert Binary(5, 4) == Binary(2, 3) + [1];
    assert Binary(2, 3) == Binary(1, 2) + [0];
    assert Binary(1, 2) == Binary(0, 1) + [1];
    assert Binary(0, 1) == Binary(0, 0) + [0];
    assert Pow2(3) == 2 * Pow2(2) == 4 * Pow2(1) == 8;
    assert Pow2(6) == 2 * Pow2(5) == 4 * Pow2(4) == 8 * Pow2(3);
    assert Pow2(8) == 2 * Pow2(7) == 4 * Pow2(6);
  }

  lemma DonorRefs()
    ensures References(BITS, 13, TINY_SPS) == Done(Step(3, 19))
  {
    TenBits();
    assert BITS[14..19] == [0, 1, 0, 1, 0];
    Takes(BITS, 14, 10, 5);
    TakesBit(BITS, 13);
    hide TakeU, Binary, Pow2, BitsFor;
    assert TINY_DELTAS[10] == 3;
  }

  lemma HoldsIs(b: seq<Bit>, pos: nat, w: seq<Bit>)
    requires pos + |w| <= |b| && b[pos..pos + |w|] == w
    ensures Holds(b, pos, w)
  {
  }

  lemma CountBits()
    ensures |BITS| == 40 && BITS[5..13] == [0, 0, 0, 0, 0, 0, 1, 1]
  {
  }

  lemma DonorCount()
    ensures TakeU(BITS, 5, 8) == Done(Step(3, 13))
  {
    hide *;
    Threes();
    TenBits();
    CountBits();
    HoldsIs(BITS, 5, Binary(3, 8));
    Takes(BITS, 5, 3, 8);
  }

  lemma DonorPictureParses()
    ensures ParsePicture(BITS, 5, 1, TINY_SPS) == Done(Step(Picture(3, true, 13, 19, 3, false), 19))
  {
    DonorCount();
    DonorRefs();
    hide TakeU, References, Binary, Pow2, BitsFor, TINY_DELTAS;
  }

  lemma DonorListsParse()
    ensures ParseLists(BITS, 21, KIND_P, Picture(3, true, 13, 19, 3, false), TINY_PPS) == Done(Step(Lists(3, 0), 27))
  {
    TakesBit(BITS, 21);
    UeShort(BITS, 22);
    TakesBit(BITS, 25);
    UeZero(BITS, 26);
    hide TakeU, TakeUe;
  }

  lemma DonorSigned()
    ensures TakeSe(BITS, 27) == Done(Step(17, 38))
  {
    TinyWords();
    assert BITS[27..38] == [0, 0, 0, 0, 0, 1, 0, 0, 0, 1, 0];
    hide SignedGolomb;
    TakesSe(BITS, 27, 17);
  }

  lemma DonorBitsParse()
    ensures ParseHeader(BITS, 1, TINY_SPS, TINY_PPS) == Done(Step(TINY_HEADER, 38))
  {
    DonorHeadParses();
    DonorPictureParses();
    DonorListsParse();
    DonorSigned();
    TakesBit(BITS, 19);
    TakesBit(BITS, 20);
    hide ParseHead, ParsePicture, ParseLists, TakeSe, TakeU, TINY_DELTAS;
  }

  /** The donor's header is what the parser makes of its bits. */
  lemma TinyDonorParses(rbsp: seq<Byte>)
    requires Begins(rbsp)
    ensures ParseHeader(Unpacked(rbsp), 1, TINY_SPS, TINY_PPS) == Done(Step(TINY_HEADER, 38))
  {
    TinyBits(rbsp);
    DonorBitsParse();
    assert Moved(BITS, 0, |BITS|, Unpacked(rbsp), 0) by {
      forall i | 0 <= i < 40 ensures Unpacked(rbsp)[i + 0] == BITS[i] { assert Unpacked(rbsp)[..40][i] == BITS[i]; }
    }
    hide ParseHeader, Unpacked, Moved;
    KeptHeader(BITS, Unpacked(rbsp), 1, TINY_SPS, TINY_PPS);
  }
}
