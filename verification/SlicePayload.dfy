/** The payload of a concealment slice: CTUs through the arithmetic coder, one aligned substream per CTU row. */
module SlicePayload {
  import opened Bytes
  import opened Bits
  import opened Cabac
  import opened CodingTree
  import opened CodingUnits
  import opened SlicePlan

  // ---- substreams as bits --------------------------------------------------------------------

  ghost predicate Sound(s: Segment) {
    |s.ctxs| == CONTEXTS && Coded(s.ops)
  }

  ghost predicate AllSound(segments: seq<Segment>) {
    forall i :: 0 <= i < |segments| ==> Sound(segments[i])
  }

  /** Coded bins and flush. */
  ghost function SegmentOut(s: Segment): seq<Bit>
    requires Sound(s)
  {
    StartReady();
    EncodeAll(ENC_START, s.ctxs, s.ops).out
  }

  /** With zeros to the byte boundary. */
  ghost function SegmentBits(s: Segment): (b: seq<Bit>)
    requires Sound(s)
    ensures |b| % 8 == 0
  {
    Aligned(SegmentOut(s))
  }

  ghost function AllBits(segments: seq<Segment>): (b: seq<Bit>)
    requires AllSound(segments)
    ensures |b| % 8 == 0
  {
    if segments == [] then []
    else
      var a, b := AllBits(segments[..|segments| - 1]), SegmentBits(segments[|segments| - 1]);
      WholeBytes(|a|, |b|);
      a + b
  }

  lemma AllBitsAppend(segments: seq<Segment>, s: Segment)
    requires AllSound(segments) && Sound(s)
    ensures AllSound(segments + [s]) && AllBits(segments + [s]) == AllBits(segments) + SegmentBits(s)
  {
    hide SegmentBits;
    assert (segments + [s])[..|segments|] == segments;
  }

  /** Byte offsets at which the substreams start, with the end of the last. */
  ghost function SegmentStarts(segments: seq<Segment>): (r: seq<nat>)
    requires AllSound(segments)
    ensures |r| == |segments| + 1 && r[|segments|] == |AllBits(segments)| / 8
  {
    if segments == [] then [0]
    else SegmentStarts(segments[..|segments| - 1]) + [|AllBits(segments)| / 8]
  }

  lemma StartsAppend(segments: seq<Segment>, s: Segment)
    requires AllSound(segments) && Sound(s)
    ensures AllSound(segments + [s])
    ensures SegmentStarts(segments + [s]) == SegmentStarts(segments) + [|AllBits(segments + [s])| / 8]
  {
    hide SegmentBits;
    assert (segments + [s])[..|segments|] == segments;
  }

  // ---- the plan's substreams are sound ---------------------------------------------------------

  ghost predicate SoundWalk(w: Walk) {
    && AllSound(w.finished) && |w.start| == CONTEXTS && |w.ctxs| == CONTEXTS && Coded(w.ops)
    && forall c :: c in w.stored ==> |w.stored[c]| == CONTEXTS
  }

  lemma {:induction false} WalkSound(g: Geometry, wpp: bool, qp: int, first: nat, n: nat)
    requires g.ctbs > 0
    ensures SoundWalk(WalkTo(g, wpp, qp, first, n))
    ensures forall c :: c in WalkTo(g, wpp, qp, first, n).stored <==> first <= c < first + n
  {
    hide CtxsAfter, FreshContexts, EmitTree;
    if n != 0 {
      WalkSound(g, wpp, qp, first, n - 1);
      var w := WalkTo(g, wpp, qp, first, n - 1);
      TreeCoded(g, first, first + n - 1, w.grid, RootX(g, first + n - 1), RootY(g, first + n - 1), g.levels, 0);
    }
  }

  lemma PlanSound(g: Geometry, wpp: bool, qp: int, first: nat, count: nat)
    requires g.ctbs > 0 && count > 0
    ensures AllSound(Plan(g, wpp, qp, first, count))
  {
    hide WalkTo, EmitTree;
    WalkSound(g, wpp, qp, first, count - 1);
    var w := WalkTo(g, wpp, qp, first, count - 1);
    var cur := first + count - 1;
    TreeCoded(g, first, cur, w.grid, RootX(g, cur), RootY(g, cur), g.levels, 0);
  }

  /** Contexts follow the bins whatever the registers. */
  lemma {:induction false} CtxsFollow(c: Coder, ops: seq<Op>)
    requires Ready(c.enc) && Usable(ops, c.ctxs)
    ensures CodeOps(c, ops).ctxs == CtxsAfter(c.ctxs, ops)
    decreases |ops|
  {
    hide AfterBin, AfterContinue;
    if ops != [] {
      match ops[0] {
        case Code(i, bin) =>
          NarrowBounded(c.enc, c.ctxs[i], bin);
          CtxsFollow(Coder(AfterBin(c.enc, c.ctxs[i], bin), c.ctxs[i := NextCtx(c.ctxs[i], bin)]), ops[1..]);
        case Continue =>
          NarrowBounded(c.enc, Ctx(0, 0), 0);
          CtxsFollow(Coder(AfterContinue(c.enc), c.ctxs), ops[1..]);
      }
    }
  }

  // ---- the writer's loop -------------------------------------------------------------------------

  lemma WholeBytes(x: nat, y: nat)
    requires x % 8 == 0
    ensures (x + y) % 8 == y % 8
  {
  }

  /** Alignment after whole bytes. */
  lemma {:induction false} AlignedAfter(a: seq<Bit>, s: seq<Bit>)
    requires |a| % 8 == 0
    ensures Aligned(a + s) == a + Aligned(s)
    decreases (8 - |s| % 8) % 8
  {
    WholeBytes(|a|, |s|);
    if |s| % 8 != 0 {
      assert a + s + [0] == a + (s + [0]);
      AlignedAfter(a, s + [0]);
    }
  }

  /** The coder stands in substream (start, ops), after the finished ones. */
  ghost predicate Within(em: Emitter, finished: seq<Segment>, start: seq<Ctx>, ops: seq<Op>)
    reads em, em.enc, em.enc.bw, em.depths
  {
    && em.Valid() && AllSound(finished) && Sound(Segment(start, ops))
    && em.enc.origin == |AllBits(finished)| && em.enc.bw.bits[..em.enc.origin] == AllBits(finished)
    && Ready(ENC_START) && Usable(ops, start) && em.View() == CodeOps(Coder(ENC_START, start), ops)
  }

  /** The flush that ends a substream, and zeros to the byte boundary. */
  method FinishSegment(em: Emitter, ghost finished: seq<Segment>, ghost start: seq<Ctx>, ghost ops: seq<Op>)
    requires Within(em, finished, start, ops)
    modifies em.enc, em.enc.bw
    ensures AllSound(finished + [Segment(start, ops)]) && em.enc.bw.bits == AllBits(finished + [Segment(start, ops)])
  {
    hide AllBits, AfterFlush, CodeOps, Aligned;
    EncodeAllCodes(Coder(ENC_START, start), ops);
    em.enc.EncodeTerminate(1);
    ghost var out := em.enc.View().out;
    assert em.enc.bw.bits == AllBits(finished) + out;
    AlignedAfter(AllBits(finished), out);
    AllBitsAppend(finished, Segment(start, ops));
    em.enc.bw.AlignZero();
  }

  /** A CTU's units extend the current substream. */
  method EmitCtuUnits(em: Emitter, cur: nat, ghost finished: seq<Segment>, ghost start: seq<Ctx>, ghost ops: seq<Op>)
    requires Within(em, finished, start, ops) && em.g.ctbs > 0
    modifies em, em.enc, em.enc.bw, em.depths
    ensures var e := EmitCtu(em.g, em.first, cur, old(em.grid));
      && Within(em, finished, start, ops + e.ops) && em.grid == e.grid && em.ctxs == CtxsAfter(old(em.ctxs), e.ops)
  {
    hide AllBits, CodeOps, EmitTree, Ready, CtxsAfter, CtbSize;
    em.cur := cur;
    ghost var begin := em.View();
    ghost var e := EmitCtu(em.g, em.first, cur, em.grid);
    TreeCoded(em.g, em.first, cur, em.grid, RootX(em.g, cur), RootY(em.g, cur), em.g.levels, 0);
    var c := CtbSize(em.g);
    em.EmitCu(cur % em.g.ctbs * c, cur / em.g.ctbs * c, em.g.levels, 0);
    CodeAppend(Coder(ENC_START, start), ops, e.ops);
    CtxsFollow(begin, e.ops);
  }

  /** A terminating 0. */
  method GoOn(em: Emitter, ghost finished: seq<Segment>, ghost start: seq<Ctx>, ghost ops: seq<Op>)
    requires Within(em, finished, start, ops)
    modifies em.enc, em.enc.bw
    ensures Within(em, finished, start, ops + [Continue])
  {
    hide AllBits, AfterContinue, AfterBin;
    NarrowBounded(em.enc.View(), Ctx(0, 0), 0);
    CodeAppend(Coder(ENC_START, start), ops, [Continue]);
    ContinueOps(em.View());
    hide CodeOps;
    em.enc.EncodeTerminate(0);
  }

  lemma ContinueOps(c: Coder)
    requires Ready(c.enc)
    ensures Ready(AfterContinue(c.enc)) && Usable([Continue], c.ctxs)
    ensures CodeOps(c, [Continue]) == Coder(AfterContinue(c.enc), c.ctxs)
  {
    hide AfterContinue;
    NarrowBounded(c.enc, Ctx(0, 0), 0);
    assert [Continue][1..] == [];
  }

  // ---- the context snapshot of the row above -----------------------------------------------------

  /** The snapshot holds the contexts after the last second CTU of a row, coded before end. */
  ghost predicate Snapped(g: Geometry, first: nat, end: nat, stored: map<int, seq<Ctx>>, have: bool, snapshot: seq<Ctx>,
                          at: nat)
    requires g.ctbs > 0
  {
    if have then
      && first <= at < end && at % g.ctbs == 1 && at in stored && stored[at] == snapshot
      && forall c: nat :: at < c < end ==> c % g.ctbs != 1
    else forall c: nat :: first <= c < end ==> c % g.ctbs != 1
  }

  lemma SameResidue(a: nat, b: nat, n: nat)
    requires n > 0 && a % n == b % n && b <= a < b + n
    ensures a == b
  {
    assert a / n * n + a % n == a && b / n * n + b % n == b;
    if a / n > b / n { Scale(b / n + 1, a / n, n); }
    if a / n < b / n { Scale(a / n + 1, b / n, n); }
  }

  lemma SecondOfRow(cur: nat, n: nat)
    requires n >= 2 && (cur + 1) % n == 0 && cur + 2 >= n
    ensures (cur + 2 - n) % n == 1
  {
    var q := (cur + 1) / n;
    assert cur + 1 == q * n;
    assert cur + 2 - n == (q - 1) * n + 1;
    DivIs(cur + 2 - n, n, q - 1);
  }

  /** At a row's end the snapshot is what the standard synchronises from. */
  lemma RowSync(g: Geometry, qp: int, first: nat, cur: nat, stored: map<int, seq<Ctx>>, have: bool,
                snapshot: seq<Ctx>, at: nat)
    requires g.ctbs > 0 && first <= cur && (cur + 1) % g.ctbs == 0
    requires Snapped(g, first, cur + 1, stored, have, snapshot, at)
    requires forall c :: c in stored <==> first <= c < cur + 1
    ensures RowStart(g, qp, first, cur + 1, stored)
      == if have && g.ctbs >= 2 && cur + 2 - g.ctbs >= first then snapshot else FreshContexts(qp)
  {
    hide FreshContexts;
    if g.ctbs >= 2 && cur + 2 - g.ctbs >= first {
      var r := cur + 2 - g.ctbs;
      SecondOfRow(cur, g.ctbs);
      assert r % g.ctbs == 1;
      assert have && at >= r;
      SameResidue(at, r, g.ctbs);
    }
  }

  /** One more CTU, with the snapshot renewed after the second of a row. */
  lemma SnapOnward(g: Geometry, first: nat, cur: nat, stored: map<int, seq<Ctx>>, ctxs: seq<Ctx>, have: bool,
                   snapshot: seq<Ctx>, at: nat)
    requires g.ctbs > 0 && first <= cur && Snapped(g, first, cur, stored, have, snapshot, at)
    ensures var more := stored[cur := ctxs];
      if cur % g.ctbs == 1 then Snapped(g, first, cur + 1, more, true, ctxs, cur)
      else Snapped(g, first, cur + 1, more, have, snapshot, at)
  {
  }

  /** The writer stands before a CTU as the plan says. */
  ghost predicate AtCtu(em: Emitter, w: Walk, starts: seq<nat>)
    reads em, em.enc, em.enc.bw, em.depths
  {
    Within(em, w.finished, w.start, w.ops) && em.ctxs == w.ctxs && em.grid == w.grid && starts == SegmentStarts(w.finished)
  }

  /** A new substream with the given contexts. */
  method BeginSegment(em: Emitter, ctxs: seq<Ctx>, ghost finished: seq<Segment>)
    requires em.Gridded() && |ctxs| == CONTEXTS && AllSound(finished) && em.enc.bw.bits == AllBits(finished)
    modifies em`ctxs, em.enc
    ensures Within(em, finished, ctxs, []) && em.ctxs == ctxs
  {
    hide AllBits, Ready, CodeOps;
    EmptySubstream(ctxs);
    em.enc.Reset();
    em.ctxs := ctxs;
  }

  /** At a row's end: finish the substream and start the next with the contexts of the row above, or fresh ones. */
  method NextRow(em: Emitter, qp: int, cur: nat, starts: seq<nat>, snapshot: seq<Ctx>, have: bool, ghost at: nat,
                 ghost finished: seq<Segment>, ghost start: seq<Ctx>, ghost ops: seq<Op>, ghost stored: map<int, seq<Ctx>>)
    returns (starts': seq<nat>)
    requires em.g.ctbs > 0 && em.first <= cur && (cur + 1) % em.g.ctbs == 0
    requires Within(em, finished, start, ops) && AllSound(finished) && Sound(Segment(start, ops))
    requires starts == SegmentStarts(finished)
    requires Snapped(em.g, em.first, cur + 1, stored, have, snapshot, at) && (have ==> |snapshot| == CONTEXTS)
    requires forall c :: c in stored <==> em.first <= c < cur + 1
    modifies em`ctxs, em.enc, em.enc.bw
    ensures var contexts := RowStart(em.g, qp, em.first, cur + 1, stored);
      var done := finished + [Segment(start, ops)];
      Within(em, done, contexts, []) && em.ctxs == contexts && AllSound(done) && starts' == SegmentStarts(done)
  {
    hide AllBits, FreshContexts, SegmentStarts, RowStart, Snapped, Within, SegmentBits, Sound;
    ghost var done := finished + [Segment(start, ops)];
    RowSync(em.g, qp, em.first, cur, stored, have, snapshot, at);
    IsGridded(em, finished, start, ops);
    FinishSegment(em, finished, start, ops);
    StartsAppend(finished, Segment(start, ops));
    starts' := starts + [|em.enc.bw.bits| / 8];
    var aboveRight := cur + 2 - em.g.ctbs;
    if have && em.g.ctbs >= 2 && aboveRight >= em.first {
      BeginSegment(em, snapshot, done);
    } else {
      BeginSegment(em, FreshContexts(qp), done);
    }
  }

  /** One CTU that is not the last, and at a row's end the change of substream. */
  method StepCtu(em: Emitter, wpp: bool, qp: int, cur: nat, starts: seq<nat>, snapshot: seq<Ctx>, have: bool,
                 ghost at: nat, ghost w: Walk)
    returns (starts': seq<nat>, snapshot': seq<Ctx>, have': bool, ghost at': nat)
    requires em.g.ctbs > 0 && em.first <= cur && SoundWalk(w) && AtCtu(em, w, starts)
    requires forall c :: c in w.stored <==> em.first <= c < cur
    requires wpp ==> Snapped(em.g, em.first, cur, w.stored, have, snapshot, at) && (have ==> |snapshot| == CONTEXTS)
    modifies em, em.enc, em.enc.bw, em.depths
    ensures var next := AfterCtu(em.g, wpp, qp, em.first, w, cur);
      AtCtu(em, next, starts') && (wpp ==> Snapped(em.g, em.first, cur + 1, next.stored, have', snapshot', at'))
    ensures wpp && have' ==> |snapshot'| == CONTEXTS
  {
    hide EmitCtu, CtxsAfter, SegmentStarts, RowStart, Snapped, Within, RowEnds;
    ghost var e := EmitCtu(em.g, em.first, cur, w.grid);
    ghost var ops := w.ops + e.ops + [Continue];
    ghost var stored := w.stored[cur := CtxsAfter(w.ctxs, e.ops)];
    starts', snapshot', have', at' := starts, snapshot, have, at;
    EmitCtuUnits(em, cur, w.finished, w.start, w.ops);
    GoOn(em, w.finished, w.start, w.ops + e.ops);
    if wpp {
      SnapOnward(em.g, em.first, cur, w.stored, em.ctxs, have, snapshot, at);
      if cur % em.g.ctbs == 1 {
        snapshot', have', at' := em.ctxs, true, cur;
      }
    }
    RowOrNot(em.g, wpp, qp, em.first, w, cur);
    if wpp && (cur + 1) % em.g.ctbs == 0 {
      IsSound(em, w.finished, w.start, ops);
      starts' := NextRow(em, qp, cur, starts, snapshot', have', at', w.finished, w.start, ops, stored);
    }
  }

  /** The two ways of going on. */
  lemma RowOrNot(g: Geometry, wpp: bool, qp: int, first: nat, w: Walk, cur: nat)
    requires g.ctbs > 0
    ensures var e := EmitCtu(g, first, cur, w.grid);
      var ops := w.ops + e.ops + [Continue];
      var ctxs := CtxsAfter(w.ctxs, e.ops);
      var stored := w.stored[cur := ctxs];
      var start := RowStart(g, qp, first, cur + 1, stored);
      AfterCtu(g, wpp, qp, first, w, cur) ==
        if wpp && (cur + 1) % g.ctbs == 0 then Walk(w.finished + [Segment(w.start, ops)], start, [], start, stored, e.grid)
        else Walk(w.finished, w.start, ops, ctxs, stored, e.grid)
  {
    hide EmitCtu, CtxsAfter, RowStart;
  }

  lemma IsGridded(em: Emitter, finished: seq<Segment>, start: seq<Ctx>, ops: seq<Op>)
    requires Within(em, finished, start, ops)
    ensures em.Gridded()
  {
  }

  /** The last CTU, and the substream's end. */
  method LastCtu(em: Emitter, cur: nat, ghost w: Walk, ghost starts: seq<nat>)
    requires em.g.ctbs > 0 && AtCtu(em, w, starts)
    modifies em, em.enc, em.enc.bw, em.depths
    ensures var plan := w.finished + [Segment(w.start, w.ops + EmitCtu(em.g, em.first, cur, w.grid).ops)];
      AllSound(plan) && em.enc.bw.bits == AllBits(plan) && starts == SegmentStarts(plan)[..|plan|]
  {
    hide AllBits, EmitCtu, SegmentStarts, Within;
    ghost var last := Segment(w.start, w.ops + EmitCtu(em.g, em.first, cur, em.grid).ops);
    EmitCtuUnits(em, cur, w.finished, w.start, w.ops);
    IsSound(em, w.finished, last.ctxs, last.ops);
    FinishSegment(em, w.finished, last.ctxs, last.ops);
    StartsAppend(w.finished, last);
  }

  /** Everything the loop over the CTUs keeps before CTU n. */
  ghost predicate Going(em: Emitter, wpp: bool, qp: int, n: nat, starts: seq<nat>, snapshot: seq<Ctx>, have: bool,
                        at: nat)
    reads em, em.enc, em.enc.bw, em.depths
  {
    && em.g.ctbs > 0
    && AtCtu(em, WalkTo(em.g, wpp, qp, em.first, n), starts)
    && (wpp ==> Snapped(em.g, em.first, em.first + n, WalkTo(em.g, wpp, qp, em.first, n).stored, have, snapshot, at))
    && (wpp && have ==> |snapshot| == CONTEXTS)
  }

  method NextCtu(em: Emitter, wpp: bool, qp: int, n: nat, starts: seq<nat>, snapshot: seq<Ctx>, have: bool,
                 ghost at: nat)
    returns (starts': seq<nat>, snapshot': seq<Ctx>, have': bool, ghost at': nat)
    requires Going(em, wpp, qp, n, starts, snapshot, have, at)
    modifies em, em.enc, em.enc.bw, em.depths
    ensures Going(em, wpp, qp, n + 1, starts', snapshot', have', at')
  {
    hide AtCtu, WalkTo, Snapped, AfterCtu, SoundWalk;
    ghost var w := WalkTo(em.g, wpp, qp, em.first, n);
    WalkSound(em.g, wpp, qp, em.first, n);
    WalkStep(em.g, wpp, qp, em.first, n);
    starts', snapshot', have', at' := StepCtu(em, wpp, qp, em.first + n, starts, snapshot, have, at, w);
  }

  method FinalCtu(em: Emitter, wpp: bool, qp: int, n: nat, ghost starts: seq<nat>, ghost snapshot: seq<Ctx>,
                  ghost have: bool,
                  ghost at: nat)
    requires Going(em, wpp, qp, n, starts, snapshot, have, at)
    modifies em, em.enc, em.enc.bw, em.depths
    ensures var plan := Plan(em.g, wpp, qp, em.first, n + 1);
      AllSound(plan) && em.enc.bw.bits == AllBits(plan) && starts == SegmentStarts(plan)[..|plan|]
  {
    hide AtCtu, WalkTo, Snapped, AllSound, AllBits, SegmentStarts;
    PlanIs(em.g, wpp, qp, em.first, n + 1);
    LastCtu(em, em.first + n, WalkTo(em.g, wpp, qp, em.first, n), starts);
  }

  /** All CTUs of the slice, from the first. */
  method RunCtus(em: Emitter, wpp: bool, qp: int, count: nat) returns (starts: seq<nat>)
    requires count > 0 && Going(em, wpp, qp, 0, [0], [], false, 0)
    modifies em, em.enc, em.enc.bw, em.depths
    ensures em.g.ctbs > 0
    ensures var plan := Plan(em.g, wpp, qp, em.first, count);
      AllSound(plan) && em.enc.bw.bits == AllBits(plan) && starts == SegmentStarts(plan)[..|plan|]
  {
    hide AtCtu, WalkTo, Snapped, AllSound, AllBits, SegmentStarts, Plan;
    assert em.g.ctbs > 0;
    hide Going;
    var snapshot: seq<Ctx>, have := [], false;
    ghost var at: nat := 0;
    starts := [0];
    var n := 0;
    while n < count
      invariant n < count && Going(em, wpp, qp, n, starts, snapshot, have, at)
    {
      if n == count - 1 {
        FinalCtu(em, wpp, qp, n, starts, snapshot, have, at);
        break;
      }
      starts, snapshot, have, at := NextCtu(em, wpp, qp, n, starts, snapshot, have, at);
      n := n + 1;
    }
  }

  /** The payload bits of a slice and the byte offsets of its substreams. */
  method BuildPayload(g: Geometry, wpp: bool, qp: int, first: nat, count: nat) returns (bits: seq<Bit>,
                      starts: seq<nat>)
    requires WellShaped(g) && count > 0
    ensures var plan := Plan(g, wpp, qp, first, count);
      && AllSound(plan) && bits == AllBits(plan) && starts == SegmentStarts(plan)[..|plan|]
  {
    WalkStart(g, wpp, qp, first);
    NothingSnapped(g, first);
    var em := NewEmitter(g, qp, first);
    hide WalkTo, Snapped, AtCtu, FreshContexts, AllSound, AllBits, SegmentStarts, Plan;
    assert Going(em, wpp, qp, 0, [0], [], false, 0);
    hide *;
    starts := RunCtus(em, wpp, qp, count);
    bits := em.enc.bw.bits;
  }

  /** A writer at the first CTU, with fresh contexts and an empty depth grid. */
  method NewEmitter(g: Geometry, qp: int, first: nat) returns (em: Emitter)
    ensures fresh(em) && fresh(em.enc) && fresh(em.enc.bw) && fresh(em.depths) && em.g == g && em.first == first
    ensures AtCtu(em, Walk([], FreshContexts(qp), [], FreshContexts(qp), map[], map[]), [0])
  {
    StartReady();
    hide Ready, FreshContexts, AtCtu;
    var bw := new BitWriter();
    var enc := new CabacEnc(bw);
    em := new Emitter(g, enc, first, FreshContexts(qp));
    Begin(em);
  }

  lemma WalkStart(g: Geometry, wpp: bool, qp: int, first: nat)
    requires g.ctbs > 0
    ensures WalkTo(g, wpp, qp, first, 0) == Walk([], FreshContexts(qp), [], FreshContexts(qp), map[], map[])
  {
  }

  lemma WalkStep(g: Geometry, wpp: bool, qp: int, first: nat, n: nat)
    requires g.ctbs > 0
    ensures WalkTo(g, wpp, qp, first, n + 1) == AfterCtu(g, wpp, qp, first, WalkTo(g, wpp, qp, first, n), first + n)
  {
    hide AfterCtu;
  }

  lemma PlanIs(g: Geometry, wpp: bool, qp: int, first: nat, count: nat)
    requires g.ctbs > 0 && count > 0
    ensures var w := WalkTo(g, wpp, qp, first, count - 1);
      Plan(g, wpp, qp, first, count)
      == w.finished + [Segment(w.start, w.ops + EmitCtu(g, first, first + count - 1, w.grid).ops)]
  {
    hide WalkTo, EmitCtu;
  }

  lemma IsSound(em: Emitter, finished: seq<Segment>, start: seq<Ctx>, ops: seq<Op>)
    requires Within(em, finished, start, ops)
    ensures AllSound(finished) && Sound(Segment(start, ops))
  {
  }

  lemma Begin(em: Emitter)
    requires em.Valid() && em.enc.origin == 0 && em.enc.View() == ENC_START && em.grid == map[]
    ensures AtCtu(em, Walk([], em.ctxs, [], em.ctxs, map[], map[]), [0])
  {
    hide Ready, CodeOps;
    NoSegments();
    EmptySubstream(em.ctxs);
  }

  lemma NothingSnapped(g: Geometry, first: nat)
    requires g.ctbs > 0
    ensures Snapped(g, first, first, map[], false, [], 0)
  {
  }

  lemma NoSegments()
    ensures AllBits([]) == [] && SegmentStarts([]) == [0]
  {
  }

  lemma EmptySubstream(ctxs: seq<Ctx>)
    ensures Ready(ENC_START) && Usable([], ctxs) && CodeOps(Coder(ENC_START, ctxs), []) == Coder(ENC_START, ctxs)
  {
    hide Ready, CodeOps;
    StartReady();
    EmptyOps(Coder(ENC_START, ctxs));
  }
}
