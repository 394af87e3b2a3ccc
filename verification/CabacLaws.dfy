/** What the arithmetic coder's tables mean, and what it writes bit by bit. */
module CabacLaws {
  import opened Bits
  import opened Cabac

  // ---- the range a bin leaves ------------------------------------------------------------

  /** A coder at the start of its string, with this range. */
  function At(range: nat): Enc {
    ENC_START.(range := range)
  }

  /** The range left by the more or the less probable bin of a context in this state. */
  function Share(s: State, range: nat, probable: bool): nat
    requires 256 <= range <= 510
  {
    Narrowed(At(range), Ctx(s, 0), if probable then 0 else 1).range
  }

  /** The middle of the range's quarter. */
  function Middle(range: nat): nat {
    range / 64 * 64 + 32
  }

  /** Two shares in the proportion of the middles of two quarters, within two units. */
  predicate Proportional(small: nat, other: nat, quarter: nat) {
    -15 <= 9 * other - (9 + 2 * quarter) * small <= 15
  }

  /** A step of the state makes the less probable bin about a twentieth rarer. */
  predicate Decayed(before: nat, after: nat) {
    -1000 <= 1000 * after - 949 * before <= 1000
  }

  /** A less probable bin moves its share a twentieth of the way to the whole range. */
  predicate Recovered(before: nat, after: nat, middle: nat) {
    -7000 <= 1000 * after - (949 * before + 51 * middle) <= 7000
  }

  // ---- the tables, row by row ------------------------------------------------------------

  predicate RowLawful(s: State, row: LpsRow) {
    && row.q0 <= row.q1 <= row.q2 <= row.q3
    && (3 <= s < 63 ==> Proportional(row.q0, row.q1, 1) && Proportional(row.q0, row.q2, 2) && Proportional(row.q0, row.q3, 3))
  }

  predicate RowDecays(a: LpsRow, b: LpsRow) {
    Decayed(a.q0, b.q0) && Decayed(a.q1, b.q1) && Decayed(a.q2, b.q2) && Decayed(a.q3, b.q3)
  }

  predicate RowRecovers(a: LpsRow, b: LpsRow) {
    Recovered(a.q0, b.q0, 288) && Recovered(a.q1, b.q1, 352) && Recovered(a.q2, b.q2, 416) && Recovered(a.q3, b.q3, 480)
  }

  lemma Rows0(s: State)
    requires 0 <= s < 16
    ensures RowLawful(s, LPS_TABLE[s])
  {
    match s {
      case 0 => case 1 => case 2 => case 3 => case 4 => case 5 => case 6 => case 7 =>
      case 8 => case 9 => case 10 => case 11 => case 12 => case 13 => case 14 => case _ =>
    }
  }

  lemma Rows1(s: State)
    requires 16 <= s < 32
    ensures RowLawful(s, LPS_TABLE[s])
  {
    match s {
      case 16 => case 17 => case 18 => case 19 => case 20 => case 21 => case 22 => case 23 =>
      case 24 => case 25 => case 26 => case 27 => case 28 => case 29 => case 30 => case _ =>
    }
  }

  lemma Rows2(s: State)
    requires 32 <= s < 48
    ensures RowLawful(s, LPS_TABLE[s])
  {
    match s {
      case 32 => case 33 => case 34 => case 35 => case 36 => case 37 => case 38 => case 39 =>
      case 40 => case 41 => case 42 => case 43 => case 44 => case 45 => case 46 => case _ =>
    }
  }

  lemma Rows3(s: State)
    requires 48 <= s < 64
    ensures RowLawful(s, LPS_TABLE[s])
  {
    match s {
      case 48 => case 49 => case 50 => case 51 => case 52 => case 53 => case 54 => case 55 =>
      case 56 => case 57 => case 58 => case 59 => case 60 => case 61 => case 62 => case _ =>
    }
  }

  lemma Decays0(s: State)
    requires 3 <= s < 16
    ensures RowDecays(LPS_TABLE[s], LPS_TABLE[s + 1])
  {
    match s {
      case 3 => case 4 => case 5 => case 6 => case 7 => case 8 => case 9 => case 10 =>
      case 11 => case 12 => case 13 => case 14 => case _ =>
    }
  }

  lemma Decays1(s: State)
    requires 16 <= s < 32
    ensures RowDecays(LPS_TABLE[s], LPS_TABLE[s + 1])
  {
    match s {
      case 16 => case 17 => case 18 => case 19 => case 20 => case 21 => case 22 => case 23 =>
      case 24 => case 25 => case 26 => case 27 => case 28 => case 29 => case 30 => case _ =>
    }
  }

  lemma Decays2(s: State)
    requires 32 <= s < 48
    ensures RowDecays(LPS_TABLE[s], LPS_TABLE[s + 1])
  {
    match s {
      case 32 => case 33 => case 34 => case 35 => case 36 => case 37 => case 38 => case 39 =>
      case 40 => case 41 => case 42 => case 43 => case 44 => case 45 => case 46 => case _ =>
    }
  }

  lemma Decays3(s: State)
    requires 48 <= s < 62
    ensures RowDecays(LPS_TABLE[s], LPS_TABLE[s + 1])
  {
    match s {
      case 48 => case 49 => case 50 => case 51 => case 52 => case 53 => case 54 => case 55 =>
      case 56 => case 57 => case 58 => case 59 => case 60 => case _ =>
    }
  }

  lemma Recovers0(s: State)
    requires 3 <= s < 16
    ensures NEXT_STATE_LPS[s] <= s && RowRecovers(LPS_TABLE[s], LPS_TABLE[NEXT_STATE_LPS[s]])
  {
    match s {
      case 3 => case 4 => case 5 => case 6 => case 7 => case 8 => case 9 => case 10 =>
      case 11 => case 12 => case 13 => case 14 => case _ =>
    }
  }

  lemma Recovers1(s: State)
    requires 16 <= s < 32
    ensures NEXT_STATE_LPS[s] <= s && RowRecovers(LPS_TABLE[s], LPS_TABLE[NEXT_STATE_LPS[s]])
  {
    match s {
      case 16 => case 17 => case 18 => case 19 => case 20 => case 21 => case 22 => case 23 =>
      case 24 => case 25 => case 26 => case 27 => case 28 => case 29 => case 30 => case _ =>
    }
  }

  lemma Recovers2(s: State)
    requires 32 <= s < 48
    ensures NEXT_STATE_LPS[s] <= s && RowRecovers(LPS_TABLE[s], LPS_TABLE[NEXT_STATE_LPS[s]])
  {
    match s {
      case 32 => case 33 => case 34 => case 35 => case 36 => case 37 => case 38 => case 39 =>
      case 40 => case 41 => case 42 => case 43 => case 44 => case 45 => case 46 => case _ =>
    }
  }

  lemma Recovers3(s: State)
    requires 48 <= s < 63
    ensures NEXT_STATE_LPS[s] <= s && RowRecovers(LPS_TABLE[s], LPS_TABLE[NEXT_STATE_LPS[s]])
  {
    match s {
      case 48 => case 49 => case 50 => case 51 => case 52 => case 53 => case 54 => case 55 =>
      case 56 => case 57 => case 58 => case 59 => case 60 => case 61 => case _ =>
    }
  }

  lemma Rows(s: State)
    ensures RowLawful(s, LPS_TABLE[s])
  {
    hide *;
    if s < 16 { Rows0(s); } else if s < 32 { Rows1(s); } else if s < 48 { Rows2(s); } else { Rows3(s); }
  }

  lemma Decays(s: State)
    requires 3 <= s < 62
    ensures RowDecays(LPS_TABLE[s], LPS_TABLE[s + 1])
  {
    hide *;
    if s < 16 { Decays0(s); } else if s < 32 { Decays1(s); } else if s < 48 { Decays2(s); } else { Decays3(s); }
  }

  lemma Recovers(s: State)
    requires 3 <= s < 63
    ensures NEXT_STATE_LPS[s] <= s && RowRecovers(LPS_TABLE[s], LPS_TABLE[NEXT_STATE_LPS[s]])
  {
    hide *;
    if s < 16 { Recovers0(s); } else if s < 32 { Recovers1(s); } else if s < 48 { Recovers2(s); } else { Recovers3(s); }
  }

  lemma Rising(s: State)
    ensures NEXT_STATE_MPS[s] == (if s < 62 then s + 1 else s)
  {
    match s {
      case 0 => case 1 => case 2 => case 3 => case 4 => case 5 => case 6 => case 7 =>
      case 8 => case 9 => case 10 => case 11 => case 12 => case 13 => case 14 => case 15 =>
      case 16 => case 17 => case 18 => case 19 => case 20 => case 21 => case 22 => case 23 =>
      case 24 => case 25 => case 26 => case 27 => case 28 => case 29 => case 30 => case 31 =>
      case 32 => case 33 => case 34 => case 35 => case 36 => case 37 => case 38 => case 39 =>
      case 40 => case 41 => case 42 => case 43 => case 44 => case 45 => case 46 => case 47 =>
      case 48 => case 49 => case 50 => case 51 => case 52 => case 53 => case 54 => case 55 =>
      case 56 => case 57 => case 58 => case 59 => case 60 => case 61 => case 62 => case _ =>
    }
  }

  lemma Falling(s: State)
    ensures NEXT_STATE_LPS[s] <= s
  {
    match s {
      case 0 => case 1 => case 2 => case 3 => case 4 => case 5 => case 6 => case 7 =>
      case 8 => case 9 => case 10 => case 11 => case 12 => case 13 => case 14 => case 15 =>
      case 16 => case 17 => case 18 => case 19 => case 20 => case 21 => case 22 => case 23 =>
      case 24 => case 25 => case 26 => case 27 => case 28 => case 29 => case 30 => case 31 =>
      case 32 => case 33 => case 34 => case 35 => case 36 => case 37 => case 38 => case 39 =>
      case 40 => case 41 => case 42 => case 43 => case 44 => case 45 => case 46 => case 47 =>
      case 48 => case 49 => case 50 => case 51 => case 52 => case 53 => case 54 => case 55 =>
      case 56 => case 57 => case 58 => case 59 => case 60 => case 61 => case 62 => case _ =>
    }
  }

  // ---- the laws of the shares ------------------------------------------------------------

  lemma Quarters(small: nat, large: nat)
    requires 256 <= small <= large <= 510
    ensures 4 <= small / 64 <= large / 64 <= 7
  {
  }

  /** For a fixed state the less probable bin's share does not shrink as the range grows. */
  lemma SharesRise(s: State, small: nat, large: nat)
    requires 256 <= small <= large <= 510
    ensures Share(s, small, false) <= Share(s, large, false)
  {
    hide LPS_TABLE;
    Rows(s);
    Quarters(small, large);
  }

  /** A share goes with the range: against that of the smallest range, as the middles of their quarters. */
  lemma SharesProportional(s: State, range: nat)
    requires 3 <= s < 63 && 256 <= range <= 510
    ensures -15 <= 9 * Share(s, range, false) - (9 + 2 * ((range - 256) / 64)) * Share(s, 256, false) <= 15
  {
    hide LPS_TABLE;
    Rows(s);
    Quarters(256, range);
    assert (range - 256) / 64 == range / 64 - 4;
  }

  /** Where a bin moves the state: up one to 62, or down; the more probable value turns over only at state 0. */
  lemma StateMoves(c: Ctx, bin: Bit)
    ensures var d := NextCtx(c, bin);
            && (bin == c.mps ==> d == Ctx(if c.state < 62 then c.state + 1 else c.state, c.mps))
            && (bin != c.mps ==> d.state <= c.state)
            && (d.mps != c.mps <==> bin != c.mps && c.state == 0)
  {
    hide LPS_TABLE, NEXT_STATE_MPS, NEXT_STATE_LPS;
    Rising(c.state);
    Falling(c.state);
  }

  /** A more probable bin makes the less probable one about a twentieth rarer. */
  lemma ShareDecays(s: State, range: nat)
    requires 3 <= s < 62 && 256 <= range <= 510
    ensures Decayed(Share(s, range, false), Share(NextCtx(Ctx(s, 0), 0).state, range, false))
  {
    hide LPS_TABLE, NEXT_STATE_MPS, NEXT_STATE_LPS, Decayed;
    Decays(s);
    Rising(s);
    Quarters(256, range);
  }

  /** A less probable bin raises its share by a twentieth of what it lacked. */
  lemma ShareRecovers(s: State, range: nat)
    requires 3 <= s < 63 && 256 <= range <= 510
    ensures Recovered(Share(s, range, false), Share(NextCtx(Ctx(s, 0), 1).state, range, false), Middle(range))
  {
    hide LPS_TABLE, NEXT_STATE_MPS, NEXT_STATE_LPS, Recovered;
    Recovers(s);
    Quarters(256, range);
  }

  // ---- a string bit by bit ---------------------------------------------------------------

  /** One doubling of the renormalisation at a time. */
  lemma Renorming(e: Enc)
    requires e.range > 0
    ensures Renormed(e) == if e.range < 256 then Renormed(Shifted(e)) else e
  {
    hide Shifted;
  }

  lemma Bin0()
    ensures AfterBin(Enc(0, 510, 0, true, []), Ctx(11, 0), 1) == Enc(238, 270, 1, true, []) && NextCtx(Ctx(11, 0), 1) == Ctx(9, 0)
  {
    var e0 := Enc(375, 135, 0, true, []);
    var e1 := Enc(238, 270, 1, true, []);
    assert Narrowed(Enc(0, 510, 0, true, []), Ctx(11, 0), 1) == e0;
    assert Shifted(e0) == e1;
    hide Renormed, Shifted, LPS_TABLE;
    Renorming(e1);
    Renorming(e0);
  }

  lemma Bin1()
    ensures AfterBin(Enc(238, 270, 1, true, []), Ctx(9, 0), 0) == Enc(476, 360, 0, false, [1]) && NextCtx(Ctx(9, 0), 0) == Ctx(10, 0)
  {
    var e0 := Enc(238, 180, 1, true, []);
    var e1 := Enc(476, 360, 0, false, [1]);
    assert Narrowed(Enc(238, 270, 1, true, []), Ctx(9, 0), 0) == e0;
    assert Shifted(e0) == e1;
    hide Renormed, Shifted, LPS_TABLE;
    Renorming(e1);
    Renorming(e0);
  }

  lemma Bin2()
    ensures AfterBin(Enc(476, 360, 0, false, [1]), Ctx(10, 0), 0) == Enc(476, 256, 0, false, [1]) && NextCtx(Ctx(10, 0), 0) == Ctx(11, 0)
  {
    var e0 := Enc(476, 256, 0, false, [1]);
    assert Narrowed(Enc(476, 360, 0, false, [1]), Ctx(10, 0), 0) == e0;
    hide Renormed, Shifted, LPS_TABLE;
    Renorming(e0);
  }

  lemma Bin3()
    ensures AfterBin(Enc(476, 256, 0, false, [1]), Ctx(11, 0), 0) == Enc(440, 350, 1, false, [1]) && NextCtx(Ctx(11, 0), 0) == Ctx(12, 0)
  {
    var e0 := Enc(476, 175, 0, false, [1]);
    var e1 := Enc(440, 350, 1, false, [1]);
    assert Narrowed(Enc(476, 256, 0, false, [1]), Ctx(11, 0), 0) == e0;
    assert Shifted(e0) == e1;
    hide Renormed, Shifted, LPS_TABLE;
    Renorming(e1);
    Renorming(e0);
  }

  lemma Bin4()
    ensures AfterBin(Enc(440, 350, 1, false, [1]), Ctx(12, 0), 0) == Enc(440, 256, 1, false, [1]) && NextCtx(Ctx(12, 0), 0) == Ctx(13, 0)
  {
    var e0 := Enc(440, 256, 1, false, [1]);
    assert Narrowed(Enc(440, 350, 1, false, [1]), Ctx(12, 0), 0) == e0;
    hide Renormed, Shifted, LPS_TABLE;
    Renorming(e0);
  }

  lemma Bin5()
    ensures AfterBin(Enc(440, 256, 1, false, [1]), Ctx(13, 0), 1) == Enc(444, 292, 0, false, [1, 1, 0, 0]) && NextCtx(Ctx(13, 0), 1) == Ctx(11, 0)
  {
    var e0 := Enc(623, 73, 1, false, [1]);
    var e1 := Enc(222, 146, 0, false, [1, 1, 0]);
    var e2 := Enc(444, 292, 0, false, [1, 1, 0, 0]);
    assert Narrowed(Enc(440, 256, 1, false, [1]), Ctx(13, 0), 1) == e0;
    assert Shifted(e0) == e1;
    assert Shifted(e1) == e2;
    hide Renormed, Shifted, LPS_TABLE;
    Renorming(e2);
    Renorming(e1);
    Renorming(e0);
  }

  lemma Bin6()
    ensures AfterBin(Enc(444, 292, 0, false, [1, 1, 0, 0]), Ctx(11, 0), 0) == Enc(376, 422, 1, false, [1, 1, 0, 0]) && NextCtx(Ctx(11, 0), 0) == Ctx(12, 0)
  {
    var e0 := Enc(444, 211, 0, false, [1, 1, 0, 0]);
    var e1 := Enc(376, 422, 1, false, [1, 1, 0, 0]);
    assert Narrowed(Enc(444, 292, 0, false, [1, 1, 0, 0]), Ctx(11, 0), 0) == e0;
    assert Shifted(e0) == e1;
    hide Renormed, Shifted, LPS_TABLE;
    Renorming(e1);
    Renorming(e0);
  }

  lemma Bin7()
    ensures AfterBin(Enc(376, 422, 1, false, [1, 1, 0, 0]), Ctx(12, 0), 0) == Enc(376, 311, 1, false, [1, 1, 0, 0]) && NextCtx(Ctx(12, 0), 0) == Ctx(13, 0)
  {
    var e0 := Enc(376, 311, 1, false, [1, 1, 0, 0]);
    assert Narrowed(Enc(376, 422, 1, false, [1, 1, 0, 0]), Ctx(12, 0), 0) == e0;
    hide Renormed, Shifted, LPS_TABLE;
    Renorming(e0);
  }

  lemma Continued()
    ensures AfterContinue(Enc(376, 311, 1, false, [1, 1, 0, 0])) == Enc(376, 309, 1, false, [1, 1, 0, 0])
  {
    var e0 := Enc(376, 309, 1, false, [1, 1, 0, 0]);
    hide Renormed, Shifted, LPS_TABLE;
    Renorming(e0);
  }

  lemma FlushRun()
    ensures FlushStart(Enc(376, 309, 1, false, [1, 1, 0, 0])) == Enc(384, 256, 0, false, [1, 1, 0, 0, 1, 0, 0, 1, 0, 1, 0, 1])
  {
    var e0 := Enc(683, 2, 1, false, [1, 1, 0, 0]);
    var e1 := Enc(342, 4, 0, false, [1, 1, 0, 0, 1, 0]);
    var e2 := Enc(172, 8, 1, false, [1, 1, 0, 0, 1, 0]);
    var e3 := Enc(344, 16, 0, false, [1, 1, 0, 0, 1, 0, 0, 1]);
    var e4 := Enc(176, 32, 1, false, [1, 1, 0, 0, 1, 0, 0, 1]);
    var e5 := Enc(352, 64, 0, false, [1, 1, 0, 0, 1, 0, 0, 1, 0, 1]);
    var e6 := Enc(192, 128, 1, false, [1, 1, 0, 0, 1, 0, 0, 1, 0, 1]);
    var e7 := Enc(384, 256, 0, false, [1, 1, 0, 0, 1, 0, 0, 1, 0, 1, 0, 1]);
    assert Shifted(e0) == e1;
    assert Shifted(e1) == e2;
    assert Shifted(e2) == e3;
    assert Shifted(e3) == e4;
    assert Shifted(e4) == e5;
    assert Shifted(e5) == e6;
    assert Shifted(e6) == e7;
    hide Renormed, Shifted, LPS_TABLE;
    Renorming(e7);
    Renorming(e6);
    Renorming(e5);
    Renorming(e4);
    Renorming(e3);
    Renorming(e2);
    Renorming(e1);
    Renorming(e0);
  }

  lemma Flushed()
    ensures AfterFlush(Enc(376, 309, 1, false, [1, 1, 0, 0])).out == [1, 1, 0, 0, 1, 0, 0, 1, 0, 1, 0, 1, 0, 1, 1]
  {
    FlushRun();
    hide FlushStart;
  }

  /** Bins with one context. */
  ghost predicate Single(ops: seq<Op>) {
    forall i :: 0 <= i < |ops| && ops[i].Code? ==> ops[i].ctx == 0
  }

  lemma SinglePrepend(bin: Bit, ops: seq<Op>)
    requires Single(ops)
    ensures Single([Code(0, bin)] + ops) && Single([Continue])
  {
  }

  /** A context bin first. */
  lemma BinStep(e: Enc, ctxs: seq<Ctx>, i: nat, bin: Bit, ops: seq<Op>)
    requires Ready(e) && Usable([Code(i, bin)] + ops, ctxs) && i < |ctxs|
    ensures Ready(AfterBin(e, ctxs[i], bin)) && Usable(ops, ctxs[i := NextCtx(ctxs[i], bin)])
    ensures EncodeAll(e, ctxs, [Code(i, bin)] + ops)
         == EncodeAll(AfterBin(e, ctxs[i], bin), ctxs[i := NextCtx(ctxs[i], bin)], ops)
  {
    hide Ready, AfterBin, NextCtx, LPS_TABLE;
    NarrowBounded(e, ctxs[i], bin);
    var all := [Code(i, bin)] + ops;
    assert all[0] == Code(i, bin) && all[1..] == ops;
    forall k | 0 <= k < |ops| && ops[k].Code? ensures ops[k].ctx < |ctxs| {
      assert all[k + 1] == ops[k];
    }
  }

  /** And the flush after the last. */
  lemma NoMore(e: Enc, ctxs: seq<Ctx>)
    requires Ready(e)
    ensures EncodeAll(e, ctxs, []) == AfterFlush(e)
  {
    hide Ready, AfterFlush;
  }

  lemma CodedStep(e: Enc, c: Ctx, bin: Bit, ops: seq<Op>)
    requires Ready(e) && Single(ops) && Single([Code(0, bin)] + ops)
    ensures Ready(AfterBin(e, c, bin)) && Usable([Code(0, bin)] + ops, [c]) && Usable(ops, [NextCtx(c, bin)])
    ensures EncodeAll(e, [c], [Code(0, bin)] + ops) == EncodeAll(AfterBin(e, c, bin), [NextCtx(c, bin)], ops)
  {
    hide Ready, AfterBin, NextCtx, LPS_TABLE, EncodeAll;
    BinStep(e, [c], 0, bin, ops);
    assert [c][0 := NextCtx(c, bin)] == [NextCtx(c, bin)];
  }

  lemma ContinuedStep(e: Enc, c: Ctx)
    requires Ready(e)
    ensures Ready(AfterContinue(e)) && Usable([Continue], [c])
    ensures EncodeAll(e, [c], [Continue]) == AfterFlush(AfterContinue(e))
  {
    hide Ready, AfterContinue, LPS_TABLE;
    NarrowBounded(e, Ctx(0, 0), 0);
    assert [Continue][1..] == [];
  }

  lemma StartIs()
    ensures ENC_START == Enc(0, 510, 0, true, []) && Single([])
  {
  }

  lemma Suffixes()
    ensures RUN == [Code(0, 1)] + ([Code(0, 0)] + ([Code(0, 0)] + ([Code(0, 0)] + ([Code(0, 0)] + ([Code(0, 1)] + ([Code(0, 0)] + ([Code(0, 0)] + [Continue])))))))
  {
  }

  /** Nine bins with one context, from state 11: all four quarters of the range, less and more probable bins, a terminating 0. */
  const RUN: seq<Op> := [Code(0, 1), Code(0, 0), Code(0, 0), Code(0, 0), Code(0, 0), Code(0, 1), Code(0, 0), Code(0, 0), Continue]

  /** The string they are written as, flush and stop bit included. */
  lemma WrittenRun()
    ensures Ready(ENC_START) && Usable(RUN, [Ctx(11, 0)])
    ensures EncodeAll(ENC_START, [Ctx(11, 0)], RUN).out == [1, 1, 0, 0, 1, 0, 0, 1, 0, 1, 0, 1, 0, 1, 1]
  {
    hide *;
    StartReady();
    Suffixes();
    StartIs();
    SinglePrepend(0, []);
    var r7 := [Code(0, 0)] + [Continue];
    SinglePrepend(0, [Continue]);
    var r6 := [Code(0, 0)] + r7;
    SinglePrepend(0, r7);
    var r5 := [Code(0, 1)] + r6;
    SinglePrepend(1, r6);
    var r4 := [Code(0, 0)] + r5;
    SinglePrepend(0, r5);
    var r3 := [Code(0, 0)] + r4;
    SinglePrepend(0, r4);
    var r2 := [Code(0, 0)] + r3;
    SinglePrepend(0, r3);
    var r1 := [Code(0, 0)] + r2;
    SinglePrepend(0, r2);
    SinglePrepend(1, r1);
    Bin0();
    Bin1();
    Bin2();
    Bin3();
    Bin4();
    Bin5();
    Bin6();
    Bin7();
    Continued();
    Flushed();
    CodedStep(ENC_START, Ctx(11, 0), 1, r1);
    CodedStep(Enc(238, 270, 1, true, []), Ctx(9, 0), 0, r2);
    CodedStep(Enc(476, 360, 0, false, [1]), Ctx(10, 0), 0, r3);
    CodedStep(Enc(476, 256, 0, false, [1]), Ctx(11, 0), 0, r4);
    CodedStep(Enc(440, 350, 1, false, [1]), Ctx(12, 0), 0, r5);
    CodedStep(Enc(440, 256, 1, false, [1]), Ctx(13, 0), 1, r6);
    CodedStep(Enc(444, 292, 0, false, [1, 1, 0, 0]), Ctx(11, 0), 0, r7);
    CodedStep(Enc(376, 422, 1, false, [1, 1, 0, 0]), Ctx(12, 0), 0, [Continue]);
    ContinuedStep(Enc(376, 311, 1, false, [1, 1, 0, 0]), Ctx(13, 0));
  }
}
