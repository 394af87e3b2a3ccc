/** When a block is over, told from the arrivals alone, and that the receiver keeps to it. */
module BlockEndings {
  import opened Bytes
  import opened Keys
  import opened FrameBlock
  import opened ReassemblerSpec
  import opened ReassemblerRuns
  import opened FrameDelivery
  import opened ManyFrames

  // ---- the arrivals --------------------------------------------------------------------------

  /** When the first packet of a block arrived. */
  function FirstHeard(arrivals: seq<Arrival>, id: U32): Option<nat> {
    if arrivals == [] then None
    else
      var earlier, a := FirstHeard(arrivals[..|arrivals| - 1], id), arrivals[|arrivals| - 1];
      if earlier.None? && a.Arrive? && a.id == id then Some(a.now) else earlier
  }

  lemma HeardAfter(before: seq<Arrival>, a: Arrival)
    ensures forall u: U32 :: FirstHeard(before + [a], u)
                             == if FirstHeard(before, u).Some? || !a.Arrive? || u != a.id then FirstHeard(before, u) else Some(a.now)
  {
    assert (before + [a])[..|before|] == before;
  }

  predicate Heard(arrivals: seq<Arrival>, id: U32) {
    FirstHeard(arrivals, id).Some?
  }

  /** Newer than every block heard of. */
  ghost predicate Newest(arrivals: seq<Arrival>, id: U32) {
    forall u: U32 :: Heard(arrivals, u) ==> SerialDiff(id, u) > 0
  }

  /** A tick finds the block at or past its first packet plus the deadline. */
  predicate Expires(cfg: Config, before: seq<Arrival>, now: nat, id: U32) {
    Heard(before, id) && now >= FirstHeard(before, id).value + cfg.deadlineMs
  }

  /** The first packet of the newest block finds the block more than the limit behind. */
  ghost predicate FallsBehind(cfg: Config, before: seq<Arrival>, newer: U32, id: U32) {
    Heard(before, id) && Newest(before, newer) && SerialDiff(newer, id) > cfg.maxBlocksAhead
  }

  /** The last arrival ends the block: with its k-th distinct packet, at its deadline, or by leaving it too far behind. */
  ghost predicate Ends(cfg: Config, plan: Plan, arrivals: seq<Arrival>, id: U32)
    requires arrivals != []
  {
    var before := arrivals[..|arrivals| - 1];
    match arrivals[|arrivals| - 1]
    case Wait(now) => Expires(cfg, before, now, id)
    case Arrive(other, _, _) =>
      (other == id && |Distinct(arrivals, id)| >= plan(id).k) || FallsBehind(cfg, before, other, id)
  }

  /** The last arrival ends the block or a later one. */
  ghost predicate EndsFor(cfg: Config, plan: Plan, arrivals: seq<Arrival>, id: U32)
    requires arrivals != []
  {
    exists w: U32 :: Ends(cfg, plan, arrivals, w) && SerialDiff(id, w) <= 0
  }

  /** The block or a later one has ended. */
  ghost predicate Over(cfg: Config, plan: Plan, arrivals: seq<Arrival>, id: U32) {
    arrivals != [] && (Over(cfg, plan, arrivals[..|arrivals| - 1], id) || EndsFor(cfg, plan, arrivals, id))
  }

  // ---- order in half the circle ------------------------------------------------------------------

  lemma Ordered(base: U32, a: U32, b: U32, c: U32)
    requires InWindow(base, a) && InWindow(base, b) && InWindow(base, c)
    ensures SerialDiff(a, b) <= 0 && SerialDiff(b, c) <= 0 ==> SerialDiff(a, c) <= 0
    ensures SerialDiff(a, b) > 0 && SerialDiff(c, b) <= 0 ==> SerialDiff(a, c) > 0
    ensures SerialDiff(a, b) > 0 <==> SerialDiff(b, a) < 0
    ensures SerialDiff(a, a) == 0
  {
    hide SerialDiff, Off;
    SerialIsOrder(base, a, b);
    SerialIsOrder(base, b, c);
    SerialIsOrder(base, a, c);
    SerialIsOrder(base, c, b);
    SerialIsOrder(base, b, a);
    SerialIsOrder(base, a, a);
  }

  lemma ClosedBelow(base: U32, st: State, x: U32, w: U32)
    requires Within(base, st.finalizedUpto) && InWindow(base, x) && InWindow(base, w) && Closed(st, w) && SerialDiff(x, w) <= 0
    ensures Closed(st, x)
  {
    hide SerialDiff, InWindow;
    Ordered(base, x, w, st.finalizedUpto.value);
  }

  /** Moving the watermark to a block closes exactly that block and those before it. */
  lemma LaterCloses(base: U32, st: State, st': State, w: U32, x: U32)
    requires Within(base, st.finalizedUpto) && InWindow(base, x) && InWindow(base, w) && st'.finalizedUpto == Later(st.finalizedUpto, w)
    ensures Closed(st', x) <==> Closed(st, x) || SerialDiff(x, w) <= 0
  {
    hide Off, SerialDiff;
    SerialIsOrder(base, x, w);
    if st.finalizedUpto.Some? {
      SerialIsOrder(base, w, st.finalizedUpto.value);
      SerialIsOrder(base, x, st.finalizedUpto.value);
    }
  }

  // ---- what the loops close ----------------------------------------------------------------------

  ghost predicate SupersedeHits(cfg: Config, st: State, ids: seq<nat>, newest: U32, x: U32) {
    exists w: U32 :: w in ids && w in st.blocks && SerialDiff(newest, w) > cfg.maxBlocksAhead && SerialDiff(x, w) <= 0
  }

  ghost predicate TickHits(cfg: Config, st: State, ids: seq<nat>, now: nat, x: U32) {
    exists w: U32 :: w in ids && w in st.blocks && now >= st.blocks[w].firstMs + cfg.deadlineMs && SerialDiff(x, w) <= 0
  }

  /** Fewer blocks, each as it was. */
  ghost predicate Fewer(st: State, r: State) {
    && r.highest == st.highest
    && forall b :: b in r.blocks ==> b in st.blocks && r.blocks[b] == st.blocks[b]
  }

  lemma {:induction false} SupersedeCloses(base: U32, cfg: Config, env: Environment, st: State, ids: seq<nat>, newest: U32, x: U32)
    requires Inv(base, st) && InWindow(base, x)
    ensures var r := SupersededBy(cfg, env, st, ids, newest);
            && Fewer(st, r) && Inv(base, r)
            && (Closed(r, x) <==> Closed(st, x) || SupersedeHits(cfg, st, ids, newest, x))
            && (x in st.blocks && SerialDiff(newest, x) <= cfg.maxBlocksAhead ==> x in r.blocks)
            && (x in st.blocks ==> x in r.blocks || Closed(r, x))
    decreases |ids|
  {
    hide Inv, Retired, SerialDiff, InWindow, Closed, Later;
    if ids != [] {
      var id := ids[0];
      if id in st.blocks && SerialDiff(newest, id) > cfg.maxBlocksAhead {
        var r := Retired(env, st, id, Superseded);
        RetireCloses(base, env, st, id, Superseded, x);
        SupersedeCloses(base, cfg, env, r, ids[1..], newest, x);
        SupersedeHitsFirst(cfg, st, r, ids, newest, x);
      } else {
        SupersedeCloses(base, cfg, env, st, ids[1..], newest, x);
        assert SupersedeHits(cfg, st, ids, newest, x) <==> SupersedeHits(cfg, st, ids[1..], newest, x);
      }
    }
  }

  lemma SupersedeHitsFirst(cfg: Config, st: State, r: State, ids: seq<nat>, newest: U32, x: U32)
    requires ids != [] && ids[0] in st.blocks && SerialDiff(newest, ids[0]) > cfg.maxBlocksAhead && r.blocks == st.blocks - {ids[0]}
    ensures SupersedeHits(cfg, st, ids, newest, x) <==> SerialDiff(x, ids[0]) <= 0 || SupersedeHits(cfg, r, ids[1..], newest, x)
  {
    hide SerialDiff;
  }

  lemma TickHitsFirst(cfg: Config, st: State, r: State, ids: seq<nat>, now: nat, x: U32)
    requires ids != [] && ids[0] in st.blocks && now >= st.blocks[ids[0]].firstMs + cfg.deadlineMs && r.blocks == st.blocks - {ids[0]}
    ensures TickHits(cfg, st, ids, now, x) <==> SerialDiff(x, ids[0]) <= 0 || TickHits(cfg, r, ids[1..], now, x)
  {
    hide SerialDiff;
  }

  lemma RetireCloses(base: U32, env: Environment, st: State, id: U32, cause: Cause, x: U32)
    requires Inv(base, st) && InWindow(base, x) && id in st.blocks
    ensures var r := Retired(env, st, id, cause);
            && Fewer(st, r) && r.blocks == st.blocks - {id} && Inv(base, r)
            && (Closed(r, x) <==> Closed(st, x) || SerialDiff(x, id) <= 0)
            && (x == id ==> Closed(r, x))
  {
    assert InWindow(base, id) && Within(base, st.finalizedUpto);
    hide Inv, Retired, SerialDiff, InWindow, Within, Closed, Later;
    RetiredShape(env, st, id, cause);
    RetireInv(base, env, st, id, cause);
    LaterCloses(base, st, Retired(env, st, id, cause), id, x);
    Ordered(base, x, x, x);
  }

  lemma {:induction false} TickCloses(base: U32, cfg: Config, env: Environment, st: State, ids: seq<nat>, now: nat, x: U32)
    requires Inv(base, st) && InWindow(base, x)
    ensures var r := Ticked(cfg, env, st, ids, now);
            && Fewer(st, r) && Inv(base, r)
            && (Closed(r, x) <==> Closed(st, x) || TickHits(cfg, st, ids, now, x))
            && (x in st.blocks ==> x in r.blocks || Closed(r, x))
    decreases |ids|
  {
    hide Inv, Retired, SerialDiff, InWindow, Closed, Later;
    if ids != [] {
      var id := ids[0];
      if id in st.blocks && now >= st.blocks[id].firstMs + cfg.deadlineMs {
        var r := Retired(env, st, id, Deadline);
        RetireCloses(base, env, st, id, Deadline, x);
        TickCloses(base, cfg, env, r, ids[1..], now, x);
        TickHitsFirst(cfg, st, r, ids, now, x);
      } else {
        TickCloses(base, cfg, env, st, ids[1..], now, x);
        assert TickHits(cfg, st, ids, now, x) <==> TickHits(cfg, st, ids[1..], now, x);
      }
    }
  }

  // ---- what a packet closes ------------------------------------------------------------------------

  /** The packet is of the newest block so far. */
  predicate Leads(st: State, id: U32) {
    st.highest.None? || SerialDiff(id, st.highest.value) > 0
  }

  /** What a taken packet of block id does to block x. */
  ghost predicate ClosesRight(cfg: Config, st: State, r: State, id: U32, whole: bool, x: U32) {
    && (Closed(r, x) <==> Closed(st, x) || (whole && SerialDiff(x, id) <= 0)
                          || (Leads(st, id) && SupersedeHits(cfg, st, Ascending(st.blocks.Keys), id, x)))
    && (x in st.blocks ==> x in r.blocks || Closed(r, x))
    && (x in r.blocks ==> x in st.blocks && r.blocks[x] == st.blocks[x])
    && r.highest == if Leads(st, id) then Some(id) else st.highest
  }

  /** A symbol filed: supersession, then completion. */
  lemma FiledCloses(base: U32, cfg: Config, env: Environment, st: State, id: U32, x: U32)
    requires Inv(base, st) && InWindow(base, x) && InWindow(base, id) && id in st.blocks
    ensures var st2 := AfterSupersession(cfg, env, st, id);
            && id in st2.blocks && st2.blocks[id] == st.blocks[id] && Inv(base, st2)
            && ClosesRight(cfg, st, st2, id, false, x)
  {
    hide Inv, SerialDiff, InWindow, Closed, SupersededBy, Ascending, SupersedeHits;
    Ordered(base, id, id, id);
    var ids, top := Ascending(st.blocks.Keys), st.(highest := Some(id));
    if Leads(st, id) {
      HighestInv(base, st, id);
      SupersedeCloses(base, cfg, env, top, ids, id, x);
      SupersedeCloses(base, cfg, env, top, ids, id, id);
      SameClosed(st, top, x);
      SameHits(cfg, st, top, ids, id, x);
    }
  }

  lemma HighestInv(base: U32, st: State, id: U32)
    requires Inv(base, st) && InWindow(base, id)
    ensures Inv(base, st.(highest := Some(id)))
  {
    hide Increasing, BlockValid, InWindow, Off;
  }

  lemma SameHits(cfg: Config, st: State, st': State, ids: seq<nat>, newest: U32, x: U32)
    requires st.blocks == st'.blocks
    ensures SupersedeHits(cfg, st, ids, newest, x) == SupersedeHits(cfg, st', ids, newest, x)
  {
    hide SerialDiff;
  }

  lemma CompleteCloses(base: U32, cfg: Config, env: Environment, st: State, id: U32, x: U32)
    requires Inv(base, st) && InWindow(base, x) && InWindow(base, id) && id in st.blocks
    ensures var r, whole := Completed(cfg, env, st, id), Complete(cfg, st.blocks[id]) != Pending;
            && (Closed(r, x) <==> Closed(st, x) || (whole && SerialDiff(x, id) <= 0))
            && (x in st.blocks ==> x in r.blocks || Closed(r, x))
            && Fewer(st, r)
  {
    InvWithin(base, st);
    Ordered(base, x, x, x);
    CompletedFrame(cfg, env, st, id);
    hide Inv, SerialDiff, InWindow, Closed, Complete, Completed, Later, Within;
    var r := Completed(cfg, env, st, id);
    if Complete(cfg, st.blocks[id]) != Pending { LaterCloses(base, st, r, id, x); }
  }

  lemma CompletedFrame(cfg: Config, env: Environment, st: State, id: U32)
    requires id in st.blocks
    ensures var r := Completed(cfg, env, st, id);
            if Complete(cfg, st.blocks[id]) == Pending then r == st
            else r.finalizedUpto == Later(st.finalizedUpto, id) && r.blocks == st.blocks - {id} && r.highest == st.highest
  {
    hide Complete, Later;
  }

  lemma TakenCloses(base: U32, cfg: Config, env: Environment, st: State, id: U32, b: Block, x: U32)
    requires Inv(base, st) && InWindow(base, x) && InWindow(base, id) && BlockValid(b)
    ensures ClosesRight(cfg, st.(blocks := st.blocks[id := b]), TakenIn(cfg, env, st, id, Ingested(b, true)), id, Complete(cfg, b) != Pending, x)
  {
    var st1 := st.(blocks := st.blocks[id := b]);
    FiledKeeps(base, st, id, b);
    hide Inv, SerialDiff, InWindow, Closed, Complete, Later, BlockValid, AfterSupersession, Completed, Ascending, SupersedeHits, Leads;
    FiledCloses(base, cfg, env, st1, id, x);
    CompleteCloses(base, cfg, env, AfterSupersession(cfg, env, st1, id), id, x);
  }

  /** A genuine packet of an open block is taken in, and completes it exactly as the k-th distinct one. */
  lemma OwnIngest(cfg: Config, m: Sent, id: U32, st: State, n: nat, now: nat, arrived: set<int>, done: bool)
    requires Deliverable(cfg, m) && n < m.k + m.r && Tracked(m, id, st, arrived, done) && !Closed(st, id)
    ensures var p, b := Packets(m, id)[n], BlockOf(st, id, now);
            var t := Ingest(cfg, b, p.flags, p.payload, now);
            && t.ok && t.block.firstMs == b.firstMs && BlockValid(t.block)
            && (Complete(cfg, t.block) != Pending <==> |arrived + {n}| >= m.k)
  {
    assert Geometry(m.frame, m.k, m.s);
    assert !done;
    hide Complete, Ingest, Packets, Deliverable, Geometry, Held, BlockValid, Exactly, Closed;
    OpenBlock(m, id, st, arrived, now);
    var p, b := Packets(m, id)[n], BlockOf(st, id, now);
    PacketCollected(cfg, m, id, b, n, now, arrived);
    var t := Ingest(cfg, b, p.flags, p.payload, now).block;
    ExactCount(t, m.k, arrived + {n});
    HeldCompletes(cfg, t, m);
  }

  lemma ExactCount(b: Block, k: nat, arrived: set<int>)
    requires Exactly(b, k, arrived)
    ensures |b.sources| + |b.repairs| == |arrived|
  {
  }

  // ---- the receiver keeps to it -------------------------------------------------------------------

  /** What the receiver knows of block x is what the arrivals say of it. */
  ghost predicate KnownOf(cfg: Config, plan: Plan, arrivals: seq<Arrival>, st: State, x: U32) {
    && (Closed(st, x) <==> Over(cfg, plan, arrivals, x))
    && (x in st.blocks ==> FirstHeard(arrivals, x) == Some(st.blocks[x].firstMs))
    && (Heard(arrivals, x) ==> Closed(st, x) || x in st.blocks)
  }

  ghost predicate Known(base: U32, cfg: Config, plan: Plan, arrivals: seq<Arrival>, st: State) {
    forall x: U32 :: InWindow(base, x) ==> KnownOf(cfg, plan, arrivals, st, x)
  }

  /** The newest block on record is the newest heard of. */
  ghost predicate TopOf(base: U32, arrivals: seq<Arrival>, st: State) {
    && Within(base, st.highest)
    && (st.highest.Some? ==> Heard(arrivals, st.highest.value))
    && forall u: U32 :: Heard(arrivals, u) ==> InWindow(base, u) && st.highest.Some? && SerialDiff(u, st.highest.value) <= 0
  }

  lemma LeadsNewest(base: U32, arrivals: seq<Arrival>, st: State, id: U32)
    requires TopOf(base, arrivals, st) && InWindow(base, id)
    ensures Leads(st, id) <==> Newest(arrivals, id)
  {
    hide SerialDiff, InWindow, FirstHeard;
    if st.highest.Some? {
      forall u: U32 | Heard(arrivals, u) && SerialDiff(id, st.highest.value) > 0 ensures SerialDiff(id, u) > 0 {
        Ordered(base, id, st.highest.value, u);
      }
    }
  }

  /** What is over is not newer than some block heard of. */
  lemma {:induction false} OverHeard(base: U32, cfg: Config, plan: Plan, arrivals: seq<Arrival>, id: U32)
    requires Over(cfg, plan, arrivals, id)
    ensures !Newest(arrivals, id)
  {
    hide SerialDiff, Distinct;
    var before := arrivals[..|arrivals| - 1];
    if Over(cfg, plan, before, id) {
      OverHeard(base, cfg, plan, before, id);
    } else {
      var w: U32 :| Ends(cfg, plan, arrivals, w) && SerialDiff(id, w) <= 0;
      assert Heard(arrivals, w);
    }
  }

  // ---- a tick ---------------------------------------------------------------------------------------

  lemma WaitHits(base: U32, cfg: Config, plan: Plan, before: seq<Arrival>, st: State, now: nat, x: U32)
    requires Inv(base, st) && Known(base, cfg, plan, before, st)
    ensures TickHits(cfg, st, Ascending(st.blocks.Keys), now, x) ==> EndsFor(cfg, plan, before + [Wait(now)], x)
  {
    assert forall w :: w in st.blocks ==> InWindow(base, w);
    hide SerialDiff, FirstHeard, Over, Closed, InWindow, Inv, Ascending;
    var all := before + [Wait(now)];
    assert all[..|all| - 1] == before;
    if TickHits(cfg, st, Ascending(st.blocks.Keys), now, x) {
      var w: U32 :| w in st.blocks && now >= st.blocks[w].firstMs + cfg.deadlineMs && SerialDiff(x, w) <= 0;
      assert Ends(cfg, plan, all, w) by { assert KnownOf(cfg, plan, before, st, w); }
    }
  }

  lemma WaitEnds(base: U32, cfg: Config, plan: Plan, before: seq<Arrival>, st: State, now: nat, x: U32)
    requires Inv(base, st) && InWindow(base, x) && TopOf(base, before, st)
    requires Known(base, cfg, plan, before, st)
    ensures EndsFor(cfg, plan, before + [Wait(now)], x) ==> Closed(st, x) || TickHits(cfg, st, Ascending(st.blocks.Keys), now, x)
  {
    InvWithin(base, st);
    AscendingProperties(st.blocks.Keys);
    hide SerialDiff, FirstHeard, Over, Closed, Ascending, Inv, InWindow, Within;
    var all := before + [Wait(now)];
    assert all[..|all| - 1] == before;
    if EndsFor(cfg, plan, all, x) {
      var w: U32 :| Ends(cfg, plan, all, w) && SerialDiff(x, w) <= 0;
      assert Heard(before, w) && InWindow(base, w);
      assert KnownOf(cfg, plan, before, st, w);
      if Closed(st, w) {
        ClosedBelow(base, st, x, w);
      } else {
        assert w in Ascending(st.blocks.Keys);
      }
    }
  }

  /** A tick tells of every block what it should. */
  lemma WaitKnown(base: U32, cfg: Config, env: Environment, plan: Plan, before: seq<Arrival>, st: State, now: nat, x: U32)
    requires Inv(base, st) && InWindow(base, x) && TopOf(base, before, st) && Known(base, cfg, plan, before, st)
    ensures var all, r := before + [Wait(now)], Tick(cfg, env, st, now); KnownOf(cfg, plan, all, r, x) && TopOf(base, all, r)
  {
    var all := before + [Wait(now)];
    assert all[..|all| - 1] == before;
    HeardAfter(before, Wait(now));
    hide SerialDiff, FirstHeard, Closed, Ascending, Inv, InWindow, Within, Ticked, EndsFor, TickHits;
    TickCloses(base, cfg, env, st, Ascending(st.blocks.Keys), now, x);
    WaitHits(base, cfg, plan, before, st, now, x);
    WaitEnds(base, cfg, plan, before, st, now, x);
    assert KnownOf(cfg, plan, before, st, x);
    TopSame(base, before, st, Tick(cfg, env, st, now), now);
  }

  lemma TopSame(base: U32, before: seq<Arrival>, st: State, r: State, now: nat)
    requires TopOf(base, before, st) && r.highest == st.highest
    ensures TopOf(base, before + [Wait(now)], r)
  {
    var all := before + [Wait(now)];
    HeardAfter(before, Wait(now));
    hide SerialDiff, FirstHeard, InWindow, Within;
    assert forall u: U32 :: Heard(all, u) <==> Heard(before, u);
    forall u: U32 | Heard(all, u) ensures InWindow(base, u) && r.highest.Some? && SerialDiff(u, r.highest.value) <= 0 {
      assert Heard(before, u);
    }
  }

  // ---- a packet ---------------------------------------------------------------------------------------

  /** A packet of a block that is over changes nothing. */
  lemma RefusedKnown(base: U32, cfg: Config, plan: Plan, before: seq<Arrival>, st: State, id: U32, n: nat, now: nat, x: U32)
    requires Inv(base, st) && InWindow(base, x) && InWindow(base, id) && TopOf(base, before, st) && Known(base, cfg, plan, before, st)
    requires Closed(st, id)
    ensures var all := before + [Arrive(id, n, now)]; KnownOf(cfg, plan, all, st, x) && TopOf(base, all, st)
  {
    var all := before + [Arrive(id, n, now)];
    InvWithin(base, st);
    assert all[..|all| - 1] == before;
    HeardAfter(before, Arrive(id, n, now));
    hide SerialDiff, FirstHeard, Closed, Inv, InWindow, Within, Distinct;
    assert KnownOf(cfg, plan, before, st, x) && KnownOf(cfg, plan, before, st, id);
    OverHeard(base, cfg, plan, before, id);
    if EndsFor(cfg, plan, all, x) {
      var w: U32 :| Ends(cfg, plan, all, w) && SerialDiff(x, w) <= 0;
      assert w == id;
      ClosedBelow(base, st, x, id);
    }
    LeadsNewest(base, before, st, id);
    if st.highest.Some? { Ordered(base, id, st.highest.value, id); }
  }

  /** Some block heard of, not before x, is more than the limit behind. */
  ghost predicate HeardBehind(cfg: Config, before: seq<Arrival>, newer: U32, x: U32) {
    exists w: U32 :: Heard(before, w) && SerialDiff(newer, w) > cfg.maxBlocksAhead && SerialDiff(x, w) <= 0
  }

  /** What a packet ends. */
  lemma ArriveEnds(cfg: Config, plan: Plan, before: seq<Arrival>, id: U32, n: nat, now: nat, x: U32)
    ensures var all := before + [Arrive(id, n, now)];
            EndsFor(cfg, plan, all, x)
            <==> ((|Distinct(before, id) + {n}| >= plan(id).k && SerialDiff(x, id) <= 0)
                  || (Newest(before, id) && HeardBehind(cfg, before, id, x)))
  {
    var all := before + [Arrive(id, n, now)];
    assert all[..|all| - 1] == before;
    DistinctStep(all, id);
    hide SerialDiff, FirstHeard, Distinct, Newest;
    if |Distinct(before, id) + {n}| >= plan(id).k && SerialDiff(x, id) <= 0 {
      assert Ends(cfg, plan, all, id);
    }
    if Newest(before, id) && HeardBehind(cfg, before, id, x) {
      var w: U32 :| Heard(before, w) && SerialDiff(id, w) > cfg.maxBlocksAhead && SerialDiff(x, w) <= 0;
      assert Ends(cfg, plan, all, w);
    }
  }

  /** The open blocks the newest packet finds too old are those heard of, unless already closed. */
  lemma HitsHeard(base: U32, cfg: Config, plan: Plan, before: seq<Arrival>, st: State, id: U32, b: Block, x: U32)
    requires Inv(base, st) && InWindow(base, x) && InWindow(base, id) && TopOf(base, before, st) && Known(base, cfg, plan, before, st)
    ensures var st1 := st.(blocks := st.blocks[id := b]);
            (Closed(st, x) || SupersedeHits(cfg, st1, Ascending(st1.blocks.Keys), id, x)) <==> (Closed(st, x) || HeardBehind(cfg, before, id, x))
  {
    hide *;
    HitsAreHeard(base, cfg, plan, before, st, id, b, x);
    if HeardBehind(cfg, before, id, x) { HeardAreHit(base, cfg, plan, before, st, id, b, x); }
  }

  lemma HitsAreHeard(base: U32, cfg: Config, plan: Plan, before: seq<Arrival>, st: State, id: U32, b: Block, x: U32)
    requires Inv(base, st) && InWindow(base, id) && Known(base, cfg, plan, before, st)
    ensures var st1 := st.(blocks := st.blocks[id := b]);
            SupersedeHits(cfg, st1, Ascending(st1.blocks.Keys), id, x) ==> HeardBehind(cfg, before, id, x)
  {
    var st1 := st.(blocks := st.blocks[id := b]);
    Ordered(base, id, id, id);
    assert forall w :: w in st.blocks ==> InWindow(base, w);
    hide SerialDiff, FirstHeard, Closed, Inv, InWindow, Over, Ascending;
    if SupersedeHits(cfg, st1, Ascending(st1.blocks.Keys), id, x) {
      var w: U32 :| w in st1.blocks && SerialDiff(id, w) > cfg.maxBlocksAhead && SerialDiff(x, w) <= 0;
      assert KnownOf(cfg, plan, before, st, w);
    }
  }

  lemma HeardAreHit(base: U32, cfg: Config, plan: Plan, before: seq<Arrival>, st: State, id: U32, b: Block, x: U32)
    requires Inv(base, st) && InWindow(base, x) && TopOf(base, before, st) && Known(base, cfg, plan, before, st)
    requires HeardBehind(cfg, before, id, x)
    ensures var st1 := st.(blocks := st.blocks[id := b]); Closed(st, x) || SupersedeHits(cfg, st1, Ascending(st1.blocks.Keys), id, x)
  {
    var st1 := st.(blocks := st.blocks[id := b]);
    InvWithin(base, st);
    AscendingProperties(st1.blocks.Keys);
    hide SerialDiff, FirstHeard, Closed, Inv, InWindow, Within, Over, Ascending;
    var w: U32 :| Heard(before, w) && SerialDiff(id, w) > cfg.maxBlocksAhead && SerialDiff(x, w) <= 0;
    assert KnownOf(cfg, plan, before, st, w);
    if Closed(st, w) {
      ClosedBelow(base, st, x, w);
    } else {
      assert w in Ascending(st1.blocks.Keys);
    }
  }

  lemma TakenKnown(base: U32, cfg: Config, plan: Plan, before: seq<Arrival>, st: State, id: U32, n: nat, now: nat, b: Block, r: State,
                   whole: bool, x: U32)
    requires Inv(base, st) && InWindow(base, x) && InWindow(base, id) && TopOf(base, before, st) && Known(base, cfg, plan, before, st)
    requires !Closed(st, id) && b.firstMs == BlockOf(st, id, now).firstMs
    requires whole <==> |Distinct(before, id) + {n}| >= plan(id).k
    requires ClosesRight(cfg, st.(blocks := st.blocks[id := b]), r, id, whole, x)
    ensures KnownOf(cfg, plan, before + [Arrive(id, n, now)], r, x)
  {
    hide *;
    TakenClosed(base, cfg, plan, before, st, id, n, now, b, r, whole, x);
    TakenHeard(base, cfg, plan, before, st, id, n, now, b, r, whole, x);
    KnownParts(cfg, plan, before + [Arrive(id, n, now)], r, x);
  }

  lemma KnownParts(cfg: Config, plan: Plan, arrivals: seq<Arrival>, st: State, x: U32)
    requires (Closed(st, x) <==> Over(cfg, plan, arrivals, x)) && (Heard(arrivals, x) ==> Closed(st, x) || x in st.blocks)
    requires x in st.blocks ==> FirstHeard(arrivals, x) == Some(st.blocks[x].firstMs)
    ensures KnownOf(cfg, plan, arrivals, st, x)
  {
  }

  lemma TakenClosed(base: U32, cfg: Config, plan: Plan, before: seq<Arrival>, st: State, id: U32, n: nat, now: nat, b: Block, r: State,
                    whole: bool, x: U32)
    requires Inv(base, st) && InWindow(base, x) && InWindow(base, id) && TopOf(base, before, st) && Known(base, cfg, plan, before, st)
    requires whole <==> |Distinct(before, id) + {n}| >= plan(id).k
    requires ClosesRight(cfg, st.(blocks := st.blocks[id := b]), r, id, whole, x)
    ensures Closed(r, x) <==> Over(cfg, plan, before + [Arrive(id, n, now)], x)
  {
    var all, st1 := before + [Arrive(id, n, now)], st.(blocks := st.blocks[id := b]);
    assert all[..|all| - 1] == before;
    SameClosed(st, st1, x);
    assert KnownOf(cfg, plan, before, st, x);
    hide SerialDiff, FirstHeard, Closed, Inv, InWindow, Distinct, SupersedeHits, Ascending, EndsFor, Newest, TopOf, Known, HeardBehind;
    LeadsNewest(base, before, st, id);
    LeadsSame(st, st1, id);
    ArriveEnds(cfg, plan, before, id, n, now, x);
    HitsHeard(base, cfg, plan, before, st, id, b, x);
    hide Leads;
  }

  lemma LeadsSame(st: State, st': State, id: U32)
    requires st'.highest == st.highest
    ensures Leads(st', id) == Leads(st, id)
  {
  }

  lemma TakenHeard(base: U32, cfg: Config, plan: Plan, before: seq<Arrival>, st: State, id: U32, n: nat, now: nat, b: Block, r: State,
                   whole: bool, x: U32)
    requires Inv(base, st) && InWindow(base, x) && InWindow(base, id) && Known(base, cfg, plan, before, st)
    requires !Closed(st, id) && b.firstMs == BlockOf(st, id, now).firstMs
    requires ClosesRight(cfg, st.(blocks := st.blocks[id := b]), r, id, whole, x)
    ensures var all := before + [Arrive(id, n, now)];
            && (Heard(all, x) ==> Closed(r, x) || x in r.blocks)
            && (x in r.blocks ==> FirstHeard(all, x) == Some(r.blocks[x].firstMs))
  {
    HeardAfter(before, Arrive(id, n, now));
    SameClosed(st, st.(blocks := st.blocks[id := b]), x);
    assert KnownOf(cfg, plan, before, st, x) && KnownOf(cfg, plan, before, st, id);
    hide SerialDiff, FirstHeard, Closed, Inv, InWindow, SupersedeHits, Ascending, Over, Known;
  }

  lemma TakenTop(base: U32, cfg: Config, before: seq<Arrival>, st: State, id: U32, n: nat, now: nat, b: Block, r: State, whole: bool, x: U32)
    requires TopOf(base, before, st) && InWindow(base, id) && ClosesRight(cfg, st.(blocks := st.blocks[id := b]), r, id, whole, x)
    ensures TopOf(base, before + [Arrive(id, n, now)], r)
  {
    hide Closed, SupersedeHits, Ascending, SerialDiff, InWindow, TopOf;
    TopAfter(base, before, st, r, id, n, now);
  }

  lemma TopOne(base: U32, before: seq<Arrival>, st: State, id: U32, u: U32)
    requires TopOf(base, before, st) && InWindow(base, id) && (Heard(before, u) || u == id)
    ensures var top := if Leads(st, id) then id else st.highest.value; InWindow(base, u) && SerialDiff(u, top) <= 0
  {
    hide SerialDiff, FirstHeard, InWindow;
    Ordered(base, id, id, id);
    if st.highest.Some? {
      Ordered(base, id, st.highest.value, u);
      Ordered(base, u, id, id);
    }
  }

  lemma TopAfter(base: U32, before: seq<Arrival>, st: State, r: State, id: U32, n: nat, now: nat)
    requires TopOf(base, before, st) && InWindow(base, id) && r.highest == if Leads(st, id) then Some(id) else st.highest
    ensures TopOf(base, before + [Arrive(id, n, now)], r)
  {
    var all := before + [Arrive(id, n, now)];
    HeardAfter(before, Arrive(id, n, now));
    hide SerialDiff, FirstHeard, InWindow, Leads;
    assert st.highest.None? ==> Leads(st, id) by { FirstLeads(st, id); }
    forall u: U32 | Heard(all, u) ensures InWindow(base, u) && r.highest.Some? && SerialDiff(u, r.highest.value) <= 0 {
      assert Heard(before, u) || u == id;
      TopOne(base, before, st, id, u);
    }
  }

  lemma FirstLeads(st: State, id: U32)
    ensures st.highest.None? ==> Leads(st, id)
  {
  }

  lemma ArriveKnown(base: U32, cfg: Config, env: Environment, plan: Plan, before: seq<Arrival>, st: State, id: U32, n: nat, now: nat,
                    done: bool, x: U32)
    requires Inv(base, st) && InWindow(base, x) && InWindow(base, id) && TopOf(base, before, st) && Known(base, cfg, plan, before, st)
    requires Deliverable(cfg, plan(id)) && n < plan(id).k + plan(id).r && Tracked(plan(id), id, st, Distinct(before, id), done)
    ensures var all, p := before + [Arrive(id, n, now)], Packets(plan(id), id)[n];
            var r := Pushed(cfg, env, st, id, p.flags, p.payload, now);
            KnownOf(cfg, plan, all, r, x) && TopOf(base, all, r)
  {
    var p := Packets(plan(id), id)[n];
    if Closed(st, id) {
      hide Inv, InWindow, TopOf, Known, KnownOf, SerialDiff, Tracked, Packets, Deliverable, TakenIn;
      RefusedKnown(base, cfg, plan, before, st, id, n, now, x);
    } else {
      hide Inv, InWindow, TopOf, Known, KnownOf, SerialDiff, Tracked, Packets, Deliverable, TakenIn, Ingest, ClosesRight, Complete, BlockValid, Distinct;
      OwnIngest(cfg, plan(id), id, st, n, now, Distinct(before, id), done);
      var t := Ingest(cfg, BlockOf(st, id, now), p.flags, p.payload, now);
      assert t == Ingested(t.block, true);
      TakenCloses(base, cfg, env, st, id, t.block, x);
      TakenKnown(base, cfg, plan, before, st, id, n, now, t.block, TakenIn(cfg, env, st, id, t), Complete(cfg, t.block) != Pending, x);
      TakenTop(base, cfg, before, st, id, n, now, t.block, TakenIn(cfg, env, st, id, t), Complete(cfg, t.block) != Pending, x);
    }
  }

  // ---- runs -------------------------------------------------------------------------------------------

  lemma {:induction false} RunKnown(base: U32, cfg: Config, env: Environment, plan: Plan, arrivals: seq<Arrival>)
    requires AllHonest(cfg, plan, arrivals) && ArrivingIn(base, arrivals)
    ensures var st := Received(cfg, env, plan, arrivals);
            Inv(base, st) && Known(base, cfg, plan, arrivals, st) && TopOf(base, arrivals, st)
  {
    if arrivals == [] {
      StartKeeps(base);
      assert EventsOf(cfg, plan, []) == [];
    } else {
      var before, a := arrivals[..|arrivals| - 1], arrivals[|arrivals| - 1];
      assert forall i :: 0 <= i < |before| ==> before[i] == arrivals[i];
      assert before + [a] == arrivals;
      ReceivedStep(cfg, env, plan, arrivals);
      RunKnown(base, cfg, env, plan, before);
      assert a.Arrive? ==> InWindow(base, a.id);
      StepKnown(base, cfg, env, plan, before, Received(cfg, env, plan, before), a);
    }
  }

  lemma StepKnown(base: U32, cfg: Config, env: Environment, plan: Plan, before: seq<Arrival>, st: State, a: Arrival)
    requires AllHonest(cfg, plan, before) && ArrivingIn(base, before) && Honest(cfg, plan, a) && (a.Arrive? ==> InWindow(base, a.id))
    requires st == Received(cfg, env, plan, before)
    requires Inv(base, st) && Known(base, cfg, plan, before, st) && TopOf(base, before, st)
    ensures var r := Stepped(cfg, env, st, EventOf(cfg, plan, a));
            Inv(base, r) && Known(base, cfg, plan, before + [a], r) && TopOf(base, before + [a], r)
  {
    var r := Stepped(cfg, env, st, EventOf(cfg, plan, a));
    EventKind(cfg, plan, a);
    StepKeeps(base, cfg, env, st, EventOf(cfg, plan, a));
    BaseIn(base);
    hide *;
    KnownStep(base, cfg, env, plan, before, st, a, base);
    forall x: U32 | InWindow(base, x) ensures KnownOf(cfg, plan, before + [a], r, x) {
      KnownStep(base, cfg, env, plan, before, st, a, x);
    }
    KnownEach(base, cfg, plan, before + [a], r);
  }

  lemma KnownEach(base: U32, cfg: Config, plan: Plan, arrivals: seq<Arrival>, st: State)
    requires forall x: U32 :: InWindow(base, x) ==> KnownOf(cfg, plan, arrivals, st, x)
    ensures Known(base, cfg, plan, arrivals, st)
  {
    hide KnownOf, InWindow;
  }

  lemma KnownStep(base: U32, cfg: Config, env: Environment, plan: Plan, before: seq<Arrival>, st: State, a: Arrival, x: U32)
    requires AllHonest(cfg, plan, before) && ArrivingIn(base, before) && Honest(cfg, plan, a) && (a.Arrive? ==> InWindow(base, a.id))
    requires st == Received(cfg, env, plan, before) && InWindow(base, x)
    requires Inv(base, st) && Known(base, cfg, plan, before, st) && TopOf(base, before, st)
    ensures var r := Stepped(cfg, env, st, EventOf(cfg, plan, a)); KnownOf(cfg, plan, before + [a], r, x) && TopOf(base, before + [a], r)
  {
    hide Inv, TopOf, Known, KnownOf, Received, Tracked, AllHonest, ArrivingIn, Pushed, Tick, Packets, Deliverable, CompletedIn, InWindow, Distinct;
    match a {
      case Wait(now) => WaitKnown(base, cfg, env, plan, before, st, now, x);
      case Arrive(id, n, now) =>
        ReceivedTracks(base, cfg, env, plan, before, id);
        ArriveKnown(base, cfg, env, plan, before, st, id, n, now, CompletedIn(cfg, env, plan, before, id), x);
    }
  }

  lemma BaseIn(base: U32)
    ensures InWindow(base, base)
  {
  }

  // ---- the laws ---------------------------------------------------------------------------------------

  /** Arrival n, counted from 1, ends block w, which is block id or a later one. */
  ghost predicate EndedAt(cfg: Config, plan: Plan, arrivals: seq<Arrival>, id: U32, n: nat, w: U32) {
    0 < n <= |arrivals| && Ends(cfg, plan, arrivals[..n], w) && SerialDiff(id, w) <= 0
  }

  lemma {:induction false} OverMeans(cfg: Config, plan: Plan, arrivals: seq<Arrival>, id: U32)
    ensures Over(cfg, plan, arrivals, id) <==> exists n: nat, w: U32 :: EndedAt(cfg, plan, arrivals, id, n, w)
  {
    hide Ends, SerialDiff;
    if arrivals != [] {
      var before, all := arrivals[..|arrivals| - 1], |arrivals|;
      OverMeans(cfg, plan, before, id);
      forall n: nat | 0 < n < all ensures before[..n] == arrivals[..n] {}
      assert arrivals[..all] == arrivals;
      if Over(cfg, plan, before, id) {
        var n: nat, w: U32 :| EndedAt(cfg, plan, before, id, n, w);
        assert EndedAt(cfg, plan, arrivals, id, n, w);
      } else if EndsFor(cfg, plan, arrivals, id) {
        var w: U32 :| Ends(cfg, plan, arrivals, w) && SerialDiff(id, w) <= 0;
        assert EndedAt(cfg, plan, arrivals, id, all, w);
      }
      if n: nat, w: U32 :| EndedAt(cfg, plan, arrivals, id, n, w) {
        if n < all { assert EndedAt(cfg, plan, before, id, n, w); }
      }
    }
  }

  /**
   * A receiver refuses a block's packets exactly when some arrival ended the block or a later one: with its k-th distinct
   * packet, at a tick at or past its first packet plus the deadline, or with a packet of a block newer than all before and
   * more than the limit ahead.
   */
  lemma ClosedExactly(base: U32, cfg: Config, env: Environment, plan: Plan, arrivals: seq<Arrival>, id: U32)
    requires AllHonest(cfg, plan, arrivals) && ArrivingIn(base, arrivals) && InWindow(base, id)
    ensures Closed(Received(cfg, env, plan, arrivals), id) <==> exists n: nat, w: U32 :: EndedAt(cfg, plan, arrivals, id, n, w)
  {
    RunKnown(base, cfg, env, plan, arrivals);
    OverMeans(cfg, plan, arrivals, id);
    hide Received, Over, Ends, InWindow, Closed, Inv, TopOf;
  }

  /** Arrival n brings the block's k-th distinct packet before any arrival has ended it or a later block. */
  ghost predicate InTime(cfg: Config, plan: Plan, arrivals: seq<Arrival>, id: U32, n: nat) {
    && 0 < n <= |arrivals| && arrivals[n - 1].Arrive? && arrivals[n - 1].id == id
    && |Distinct(arrivals[..n - 1], id)| < plan(id).k <= |Distinct(arrivals[..n], id)|
    && forall m: nat, w: U32 :: m < n ==> !EndedAt(cfg, plan, arrivals, id, m, w)
  }

  lemma InTimeCompletes(base: U32, cfg: Config, env: Environment, plan: Plan, arrivals: seq<Arrival>, id: U32, n: nat)
    requires AllHonest(cfg, plan, arrivals) && ArrivingIn(base, arrivals) && InWindow(base, id)
    ensures CompletesAt(cfg, env, plan, arrivals, id, n) <==> InTime(cfg, plan, arrivals, id, n)
  {
    if 0 < n <= |arrivals| {
      var before := arrivals[..n - 1];
      assert forall i :: 0 <= i < |before| ==> before[i] == arrivals[i];
      hide Honest, InWindow, Closed, Received, Distinct, Ends, SerialDiff;
      ClosedExactly(base, cfg, env, plan, before, id);
      forall m: nat, w: U32 | m < n ensures EndedAt(cfg, plan, arrivals, id, m, w) <==> EndedAt(cfg, plan, before, id, m, w) {
        assert before[..m] == arrivals[..m];
      }
      assert forall m: nat, w: U32 :: EndedAt(cfg, plan, before, id, m, w) ==> m < n;
    }
  }

  /** So a block is handed out, once and as it was sent, exactly when its k-th distinct packet comes in time. */
  lemma HandedOutExactly(base: U32, cfg: Config, env: Environment, plan: Plan, arrivals: seq<Arrival>, id: U32)
    requires AllHonest(cfg, plan, arrivals) && ArrivingIn(base, arrivals) && InWindow(base, id) && Deliverable(cfg, plan(id))
    ensures var out := HandedOut(Received(cfg, env, plan, arrivals).log, id);
            if exists n: nat :: InTime(cfg, plan, arrivals, id, n) then |out| == 1 && out[0].frame == plan(id).frame else out == []
  {
    EachFrameOnce(base, cfg, env, plan, arrivals, id);
    hide InTime, CompletesAt, Received, HandedOut, AllHonest, ArrivingIn, InWindow, Deliverable;
    forall n: nat ensures CompletesAt(cfg, env, plan, arrivals, id, n) <==> InTime(cfg, plan, arrivals, id, n) {
      InTimeCompletes(base, cfg, env, plan, arrivals, id, n);
    }
  }

  /** A packet of the next block in between costs a block nothing: two blocks of two symbols, one apart, limit at least one. */
  lemma NextBlockWaits(cfg: Config, env: Environment, plan: Plan)
    requires cfg.maxBlocksAhead >= 1 && Deliverable(cfg, plan(1)) && Deliverable(cfg, plan(2)) && plan(1).k == plan(2).k == 2
    ensures var arrivals := [Arrive(1, 0, 0), Arrive(2, 0, 0), Arrive(1, 1, 0)];
            && AllHonest(cfg, plan, arrivals)
            && var out := HandedOut(Received(cfg, env, plan, arrivals).log, 1); |out| == 1 && out[0].frame == plan(1).frame
  {
    var arrivals := [Arrive(1, 0, 0), Arrive(2, 0, 0), Arrive(1, 1, 0)];
    assert InWindow(1, 1) && InWindow(1, 2);
    forall a | a in arrivals ensures Honest(cfg, plan, a) {}
    hide Received, HandedOut, Deliverable, InWindow;
    NextInTime(cfg, plan);
    HandedOutExactly(1, cfg, env, plan, arrivals, 1);
  }

  const FIRST_TWO: seq<Arrival> := [Arrive(1, 0, 0), Arrive(2, 0, 0)]

  /** Its packet ends no block of two symbols when none was heard before. */
  lemma OneEndsNone(cfg: Config, plan: Plan, w: U32)
    requires plan(1).k == 2
    ensures !Ends(cfg, plan, [Arrive(1, 0, 0)], w)
  {
    var one: seq<Arrival> := [Arrive(1, 0, 0)];
    assert one[..0] == [];
    assert Distinct(one, 1) == {0};
    hide Distinct;
  }

  lemma TwoEndNone(cfg: Config, plan: Plan, w: U32)
    requires cfg.maxBlocksAhead >= 1 && plan(1).k == plan(2).k == 2
    ensures !Ends(cfg, plan, FIRST_TWO, w)
  {
    assert FIRST_TWO[..1] == [Arrive(1, 0, 0)];
    assert Distinct(FIRST_TWO, 2) == {0};
    HeardAfter([], Arrive(1, 0, 0));
    assert [] + [Arrive(1, 0, 0)] == [Arrive(1, 0, 0)];
    assert Heard([Arrive(1, 0, 0)], w) ==> w == 1;
    hide Distinct, FirstHeard, Newest;
  }

  lemma NextInTime(cfg: Config, plan: Plan)
    requires cfg.maxBlocksAhead >= 1 && plan(1).k == plan(2).k == 2
    ensures InTime(cfg, plan, [Arrive(1, 0, 0), Arrive(2, 0, 0), Arrive(1, 1, 0)], 1, 3)
  {
    var arrivals: seq<Arrival> := [Arrive(1, 0, 0), Arrive(2, 0, 0), Arrive(1, 1, 0)];
    assert arrivals[..1] == [Arrive(1, 0, 0)] && arrivals[..2] == FIRST_TWO && arrivals[..3] == arrivals;
    assert Distinct(arrivals[..2], 1) == {0};
    assert Distinct(arrivals, 1) == {0, 1} by { DistinctStep(arrivals, 1); }
    hide Distinct, Ends, SerialDiff;
    forall m: nat, w: U32 | m < 3 ensures !EndedAt(cfg, plan, arrivals, 1, m, w) {
      OneEndsNone(cfg, plan, w);
      TwoEndNone(cfg, plan, w);
    }
  }
}
