/** The salvage hook and the order of frames: exactly which hooks can make the egress take an older frame after a newer one. */
module SalvageOrder {
  import opened Bytes
  import opened Keys
  import opened FrameBlock
  import opened ReassemblerSpec
  import opened ReassemblerRuns

  /** A hook may do another thing at every attempt. */
  type Hook = (nat, SalvageView) -> SalvageResult

  type Egress = (nat, seq<Byte>) -> bool

  function With(egress: Egress, h: Hook): Environment {
    Environment(egress, Some(h))
  }

  // ---- what a hook can be shown ---------------------------------------------------------------------

  datatype Piece = Piece(flags: DataFlags, payload: seq<Byte>)

  /** A block after a row of symbols. */
  function Grown(cfg: Config, pieces: seq<Piece>, now: nat): Block {
    if pieces == [] then NewBlock(now)
    else
      var p := pieces[|pieces| - 1];
      Ingest(cfg, Grown(cfg, pieces[..|pieces| - 1], now), p.flags, p.payload, now).block
  }

  /** Everything but the times. */
  predicate SameShape(a: Block, b: Block) {
    a.k == b.k && a.s == b.s && a.frameLen == b.frameLen && a.sources == b.sources && a.repairs == b.repairs
  }

  /** Times play no part in what a symbol does to a block. */
  lemma IngestTimeless(cfg: Config, a: Block, b: Block, flags: DataFlags, p: seq<Byte>, now: nat, later: nat)
    requires SameShape(a, b)
    ensures var x, y := Ingest(cfg, a, flags, p, now), Ingest(cfg, b, flags, p, later);
            SameShape(x.block, y.block) && x.ok == y.ok && y.block.firstMs == b.firstMs
  {
    hide IngestSource, IngestRepair;
    if flags.fecRepair { RepairTimeless(cfg, a, b, flags.endOfBlock, p, now, later); }
    else { SourceTimeless(cfg, a, b, flags.endOfBlock, p, now, later); }
  }

  lemma RepairTimeless(cfg: Config, a: Block, b: Block, eob: bool, p: seq<Byte>, now: nat, later: nat)
    requires SameShape(a, b)
    ensures var x, y := IngestRepair(cfg, a, eob, p, now), IngestRepair(cfg, b, eob, p, later);
            SameShape(x.block, y.block) && x.ok == y.ok && y.block.firstMs == b.firstMs
  {
  }

  lemma SourceTimeless(cfg: Config, a: Block, b: Block, eob: bool, p: seq<Byte>, now: nat, later: nat)
    requires SameShape(a, b)
    ensures var x, y := IngestSource(cfg, a, eob, p, now), IngestSource(cfg, b, eob, p, later);
            SameShape(x.block, y.block) && x.ok == y.ok && y.block.firstMs == b.firstMs
  {
  }

  /** Below k symbols, with a source to build on. */
  predicate Partial(b: Block) {
    b.k != 0 && b.sources != map[] && |b.sources| + |b.repairs| < b.k
  }

  /** Some row of symbols leaves a block that a hook sees like this. */
  ghost predicate Showable(cfg: Config, v: SalvageView) {
    exists pieces :: Partial(Grown(cfg, pieces, 0)) && ViewOf(v.id, Grown(cfg, pieces, 0)) == v
  }

  ghost predicate Emits(h: Hook, v: SalvageView) {
    exists n :: h(n, v).frames != []
  }

  /** It emitted, but the last frame alone does not decide what was delivered, or it denies having repaired. */
  predicate Disowned(r: SalvageResult) {
    |r.frames| > 1 || (|r.frames| == 1 && !r.repaired)
  }

  /** The hook may emit here and disown it. */
  ghost predicate Disowns(h: Hook, v: SalvageView) {
    exists n :: Disowned(h(n, v))
  }

  /** No older block is worth emitting to the hook when a newer one may be emitted and disowned. */
  ghost predicate Orderly(cfg: Config, h: Hook) {
    forall old', new' :: Showable(cfg, old') && Showable(cfg, new') && Emits(h, old') && Disowns(h, new') ==>
      SerialDiff(new'.id, old'.id) <= 0
  }

  // ---- every frame taken is credited or disowned ----------------------------------------------------

  /** A block like one that some row of symbols leaves. */
  ghost predicate Grows(cfg: Config, b: Block) {
    exists pieces :: SameShape(Grown(cfg, pieces, 0), b)
  }

  ghost predicate DisownedId(cfg: Config, h: Hook, id: U32) {
    exists v :: Showable(cfg, v) && v.id == id && Disowns(h, v)
  }

  /** A frame taken but not credited belongs to a block the hook disowns. */
  ghost predicate Backed(cfg: Config, h: Hook, log: seq<Emission>) {
    forall i :: 0 <= i < |log| && log[i].accepted && !log[i].credited ==> DisownedId(cfg, h, log[i].id)
  }

  ghost predicate Backing(cfg: Config, h: Hook, st: State) {
    (forall id :: id in st.blocks ==> Grows(cfg, st.blocks[id])) && Backed(cfg, h, st.log)
  }

  lemma PartialShows(cfg: Config, id: U32, b: Block)
    requires Grows(cfg, b) && Partial(b)
    ensures Showable(cfg, ViewOf(id, b))
  {
    var pieces :| SameShape(Grown(cfg, pieces, 0), b);
    assert ViewOf(id, Grown(cfg, pieces, 0)) == ViewOf(id, b);
    hide Grown;
  }

  lemma IngestGrows(cfg: Config, b: Block, flags: DataFlags, p: seq<Byte>, now: nat)
    requires Grows(cfg, b)
    ensures Grows(cfg, Ingest(cfg, b, flags, p, now).block)
  {
    hide Ingest, SameShape;
    var pieces :| SameShape(Grown(cfg, pieces, 0), b);
    var more := pieces + [Piece(flags, p)];
    assert more[..|pieces|] == pieces;
    IngestTimeless(cfg, Grown(cfg, pieces, 0), b, flags, p, 0, now);
    assert SameShape(Grown(cfg, more, 0), Ingest(cfg, b, flags, p, now).block);
  }

  lemma NewGrows(cfg: Config, now: nat)
    ensures Grows(cfg, NewBlock(now))
  {
    assert SameShape(Grown(cfg, [], 0), NewBlock(now));
  }

  /** What retiring hands over: only the salvage of a partial block; what is taken uncredited is disowned. */
  lemma RetiredEntries(egress: Egress, h: Hook, st: State, id: U32, cause: Cause)
    requires id in st.blocks
    ensures var r, v := Retired(With(egress, h), st, id, cause), ViewOf(id, st.blocks[id]);
            && |r.log| >= |st.log| && r.log[..|st.log|] == st.log
            && (|r.log| > |st.log| ==> Partial(st.blocks[id]) && Emits(h, v) && SalvageAllowed(With(egress, h), st, id, st.blocks[id]))
            && (forall i :: |st.log| <= i < |r.log| ==> r.log[i].id == id)
            && (forall i :: |st.log| <= i < |r.log| && r.log[i].accepted && !r.log[i].credited ==> Disowns(h, v))
  {
    var env, b := With(egress, h), st.blocks[id];
    RetiredShape(env, st, id, cause);
    hide Later, Lost, SerialDiff, Salvaged, Finalized;
    if !(b.k != 0 && |b.sources| + |b.repairs| >= b.k) && SalvageAllowed(env, st, id, b) {
      var r := h(|st.log|, ViewOf(id, b));
      if r.frames != [] { SalvagedEntries(egress, h, st, id, r); }
      FinalizedLog(TriedSalvage(env, st, id, b).st, id);
    }
  }

  lemma FinalizedLog(st: State, id: U32)
    ensures forall stats :: Finalized(st.(stats := stats), id).log == st.log
    ensures Finalized(st, id).log == st.log
  {
  }

  lemma SalvagedEntries(egress: Egress, h: Hook, st: State, id: U32, r: SalvageResult)
    requires r.frames != []
    ensures var log := Salvaged(With(egress, h), st, id, r).st.log;
            && |log| == |st.log| + |r.frames| && log[..|st.log|] == st.log
            && (forall i :: |st.log| <= i < |log| && log[i].accepted && !log[i].credited ==> |r.frames| > 1 || !r.repaired)
  {
    hide Later, Offered;
  }

  lemma BackedMore(cfg: Config, h: Hook, log: seq<Emission>, more: seq<Emission>)
    requires Backed(cfg, h, log) && |log| <= |more| && more[..|log|] == log
    requires forall i :: |log| <= i < |more| && more[i].accepted && !more[i].credited ==> DisownedId(cfg, h, more[i].id)
    ensures Backed(cfg, h, more)
  {
    hide DisownedId;
    forall i | 0 <= i < |more| && more[i].accepted && !more[i].credited ensures DisownedId(cfg, h, more[i].id) {
      if i < |log| { assert more[i] == log[i]; }
    }
  }

  lemma RetireBacks(cfg: Config, egress: Egress, h: Hook, st: State, id: U32, cause: Cause)
    requires Backing(cfg, h, st) && id in st.blocks
    ensures Backing(cfg, h, Retired(With(egress, h), st, id, cause))
  {
    var r, b := Retired(With(egress, h), st, id, cause), st.blocks[id];
    RetiredShape(With(egress, h), st, id, cause);
    RetiredEntries(egress, h, st, id, cause);
    assert Grows(cfg, b);
    hide Retired, Grows, Later, Showable, Disowns;
    if |r.log| > |st.log| { PartialShows(cfg, id, b); }
    forall i | |st.log| <= i < |r.log| && r.log[i].accepted && !r.log[i].credited ensures DisownedId(cfg, h, r.log[i].id) {
      assert Showable(cfg, ViewOf(id, b)) && Disowns(h, ViewOf(id, b));
    }
    BackedMore(cfg, h, st.log, r.log);
  }

  lemma {:induction false} SupersedeBacks(cfg: Config, egress: Egress, h: Hook, st: State, ids: seq<nat>, newest: U32)
    requires Backing(cfg, h, st)
    ensures Backing(cfg, h, SupersededBy(cfg, With(egress, h), st, ids, newest))
    decreases |ids|
  {
    hide Backing, Retired, SerialDiff, With;
    if ids != [] {
      var id := ids[0];
      if id in st.blocks && SerialDiff(newest, id) > cfg.maxBlocksAhead {
        RetireBacks(cfg, egress, h, st, id, Superseded);
        SupersedeBacks(cfg, egress, h, Retired(With(egress, h), st, id, Superseded), ids[1..], newest);
      } else {
        SupersedeBacks(cfg, egress, h, st, ids[1..], newest);
      }
    }
  }

  lemma {:induction false} TickedBacks(cfg: Config, egress: Egress, h: Hook, st: State, ids: seq<nat>, now: nat)
    requires Backing(cfg, h, st)
    ensures Backing(cfg, h, Ticked(cfg, With(egress, h), st, ids, now))
    decreases |ids|
  {
    hide Backing, Retired, With;
    if ids != [] {
      var id := ids[0];
      if id in st.blocks && now >= st.blocks[id].firstMs + cfg.deadlineMs {
        RetireBacks(cfg, egress, h, st, id, Deadline);
        TickedBacks(cfg, egress, h, Retired(With(egress, h), st, id, Deadline), ids[1..], now);
      } else {
        TickedBacks(cfg, egress, h, st, ids[1..], now);
      }
    }
  }

  lemma CompletedBacks(cfg: Config, env: Environment, h: Hook, st: State, id: U32)
    requires Backing(cfg, h, st) && id in st.blocks
    ensures Backing(cfg, h, Completed(cfg, env, st, id))
  {
    hide Complete, Later, Grows, DisownedId;
  }

  lemma FiledBacks(cfg: Config, h: Hook, st: State, id: U32, b: Block, stats: Stats)
    requires Backing(cfg, h, st) && Grows(cfg, b)
    ensures Backing(cfg, h, st.(blocks := st.blocks[id := b]))
    ensures Backing(cfg, h, st.(blocks := st.blocks[id := b], highest := Some(id)))
    ensures Backing(cfg, h, st.(blocks := st.blocks[id := b], stats := stats))
  {
    hide Grows, Backed;
  }

  lemma TakenBacks(cfg: Config, egress: Egress, h: Hook, st: State, id: U32, taken: Ingested)
    requires Backing(cfg, h, st) && Grows(cfg, taken.block)
    ensures Backing(cfg, h, TakenIn(cfg, With(egress, h), st, id, taken))
  {
    hide Backing, Grows, SupersededBy, Completed, SerialDiff, With, Ascending;
    FiledBacks(cfg, h, st, id, taken.block, st.stats.(malformed := st.stats.malformed + 1));
    var st1 := st.(blocks := st.blocks[id := taken.block]);
    SupersedeBacks(cfg, egress, h, st1.(highest := Some(id)), Ascending(st1.blocks.Keys), id);
    var st2 := AfterSupersession(cfg, With(egress, h), st1, id);
    if id in st2.blocks { CompletedBacks(cfg, With(egress, h), h, st2, id); }
  }

  lemma StepBacks(cfg: Config, egress: Egress, h: Hook, st: State, e: Event)
    requires Backing(cfg, h, st)
    ensures Backing(cfg, h, Stepped(cfg, With(egress, h), st, e))
  {
    match e {
      case Clock(now) =>
        hide Backing, Ticked, Ascending, With;
        TickedBacks(cfg, egress, h, st, Ascending(st.blocks.Keys), now);
      case Push(id, flags, p, now) =>
        var b := if id in st.blocks then st.blocks[id] else NewBlock(now);
        NewGrows(cfg, now);
        hide Grows, TakenIn, Ingest, SerialDiff, With, Backed;
        IngestGrows(cfg, b, flags, p, now);
        TakenBacks(cfg, egress, h, st, id, Ingest(cfg, b, flags, p, now));
    }
  }

  lemma {:induction false} RunBacks(cfg: Config, egress: Egress, h: Hook, events: seq<Event>)
    ensures Backing(cfg, h, Run(cfg, With(egress, h), events))
  {
    if events != [] {
      RunBacks(cfg, egress, h, events[..|events| - 1]);
      hide Backing, Stepped, With;
      StepBacks(cfg, egress, h, Run(cfg, With(egress, h), events[..|events| - 1]), events[|events| - 1]);
    }
  }

  // ---- an orderly hook keeps the order --------------------------------------------------------------

  /** Frames taken never go back. */
  ghost predicate Forward(base: U32, log: seq<Emission>) {
    forall i, j :: 0 <= i < j < |log| && log[i].accepted && log[j].accepted ==> Off(base, log[i].id) <= Off(base, log[j].id)
  }

  /** Every block in the log is behind the watermark. */
  ghost predicate Behind(base: U32, st: State) {
    forall i :: 0 <= i < |st.log| ==> st.finalizedUpto.Some? && Off(base, st.log[i].id) <= Off(base, st.finalizedUpto.value)
  }

  ghost predicate Ordered(base: U32, cfg: Config, h: Hook, st: State) {
    Inv(base, st) && Backing(cfg, h, st) && Behind(base, st) && Forward(base, st.log)
  }

  lemma ForwardMore(base: U32, log: seq<Emission>, more: seq<Emission>, id: U32)
    requires Forward(base, log) && |log| <= |more| && more[..|log|] == log
    requires forall i :: 0 <= i < |log| && log[i].accepted && |more| > |log| ==> Off(base, log[i].id) <= Off(base, id)
    requires forall i :: |log| <= i < |more| ==> more[i].id == id
    ensures Forward(base, more)
  {
    hide Off;
    forall i, j | 0 <= i < j < |more| && more[i].accepted && more[j].accepted
      ensures Off(base, more[i].id) <= Off(base, more[j].id)
    {
      if j < |log| { assert more[i] == log[i] && more[j] == log[j]; } else if i < |log| { assert more[i] == log[i]; }
    }
  }

  lemma BehindMore(base: U32, st: State, st': State, id: U32)
    requires Behind(base, st) && |st.log| <= |st'.log| && st'.log[..|st.log|] == st.log
    requires Within(base, st.finalizedUpto) && InWindow(base, id) && st'.finalizedUpto == Later(st.finalizedUpto, id)
    requires forall i :: |st.log| <= i < |st'.log| ==> st'.log[i].id == id
    ensures Behind(base, st')
  {
    LaterKeeps(base, st.finalizedUpto, id);
    hide Off, Later, InWindow, Within;
    forall i | 0 <= i < |st'.log|
      ensures st'.finalizedUpto.Some? && Off(base, st'.log[i].id) <= Off(base, st'.finalizedUpto.value)
    {
      if i < |st.log| { assert st'.log[i] == st.log[i]; }
    }
  }

  /** A block the hook may still emit comes after every frame taken so far. */
  lemma NothingNewer(base: U32, cfg: Config, egress: Egress, h: Hook, st: State, id: U32, e: Emission)
    requires Orderly(cfg, h) && Inv(base, st) && Backing(cfg, h, st) && id in st.blocks && e in st.log && e.accepted
    requires Partial(st.blocks[id]) && Emits(h, ViewOf(id, st.blocks[id]))
    requires SalvageAllowed(With(egress, h), st, id, st.blocks[id])
    ensures Off(base, e.id) <= Off(base, id)
  {
    assert InWindow(base, id) && InWindow(base, e.id);
    if e.credited {
      assert st.lastEmitted.Some? && InWindow(base, st.lastEmitted.value);
      SerialIsOrder(base, id, st.lastEmitted.value);
    } else {
      assert DisownedId(cfg, h, e.id) && Grows(cfg, st.blocks[id]);
      hide Inv, Grows, Backing, Showable;
      PartialShows(cfg, id, st.blocks[id]);
      SerialIsOrder(base, e.id, id);
    }
  }

  lemma RetireOrders(base: U32, cfg: Config, egress: Egress, h: Hook, st: State, id: U32, cause: Cause)
    requires Orderly(cfg, h) && Ordered(base, cfg, h, st) && id in st.blocks
    ensures Ordered(base, cfg, h, Retired(With(egress, h), st, id, cause))
  {
    var r := Retired(With(egress, h), st, id, cause);
    InvWindows(base, st, id);
    hide Retired, Orderly, Inv, Backing, Forward, Behind, Partial, Emits, SalvageAllowed, With, Off, UpTo, Later, InWindow, Within;
    RetireKeeps(base, With(egress, h), st, id, cause, 0x8000_0000);
    RetireBacks(cfg, egress, h, st, id, cause);
    RetiredShape(With(egress, h), st, id, cause);
    RetiredEntries(egress, h, st, id, cause);
    BehindMore(base, st, r, id);
    forall i | 0 <= i < |st.log| && st.log[i].accepted && |r.log| > |st.log| ensures Off(base, st.log[i].id) <= Off(base, id) {
      NothingNewer(base, cfg, egress, h, st, id, st.log[i]);
    }
    ForwardMore(base, st.log, r.log, id);
  }

  lemma InvWindows(base: U32, st: State, id: U32)
    requires Inv(base, st) && id in st.blocks
    ensures UpTo(base, st, 0x8000_0000) && InWindow(base, id) && Off(base, id) < 0x8000_0000 && Within(base, st.finalizedUpto)
  {
  }

  lemma {:induction false} SupersedeOrders(base: U32, cfg: Config, egress: Egress, h: Hook, st: State, ids: seq<nat>,
                                           newest: U32)
    requires Orderly(cfg, h) && Ordered(base, cfg, h, st)
    ensures Ordered(base, cfg, h, SupersededBy(cfg, With(egress, h), st, ids, newest))
    decreases |ids|
  {
    hide Orderly, Ordered, Retired, SerialDiff, With;
    if ids != [] {
      var id := ids[0];
      if id in st.blocks && SerialDiff(newest, id) > cfg.maxBlocksAhead {
        RetireOrders(base, cfg, egress, h, st, id, Superseded);
        SupersedeOrders(base, cfg, egress, h, Retired(With(egress, h), st, id, Superseded), ids[1..], newest);
      } else {
        SupersedeOrders(base, cfg, egress, h, st, ids[1..], newest);
      }
    }
  }

  lemma {:induction false} TickedOrders(base: U32, cfg: Config, egress: Egress, h: Hook, st: State, ids: seq<nat>, now: nat)
    requires Orderly(cfg, h) && Ordered(base, cfg, h, st)
    ensures Ordered(base, cfg, h, Ticked(cfg, With(egress, h), st, ids, now))
    decreases |ids|
  {
    hide Orderly, Ordered, Retired, With;
    if ids != [] {
      var id := ids[0];
      if id in st.blocks && now >= st.blocks[id].firstMs + cfg.deadlineMs {
        RetireOrders(base, cfg, egress, h, st, id, Deadline);
        TickedOrders(base, cfg, egress, h, Retired(With(egress, h), st, id, Deadline), ids[1..], now);
      } else {
        TickedOrders(base, cfg, egress, h, st, ids[1..], now);
      }
    }
  }

  /** A completed frame comes after the watermark, so after everything in the log. */
  lemma CompletedOrders(base: U32, cfg: Config, egress: Egress, h: Hook, st: State, id: U32)
    requires Ordered(base, cfg, h, st) && id in st.blocks && UpTo(base, st, Off(base, id))
    ensures Ordered(base, cfg, h, Completed(cfg, With(egress, h), st, id))
  {
    var r := Completed(cfg, With(egress, h), st, id);
    CompletedKeeps(base, cfg, With(egress, h), st, id);
    CompletedBacks(cfg, With(egress, h), h, st, id);
    CompletedShape(cfg, With(egress, h), st, id);
    InvWindows(base, st, id);
    assert forall i :: 0 <= i < |st.log| ==> Off(base, st.log[i].id) < Off(base, id);
    hide Completed, Inv, Backing, Off, Later, InWindow, Within, With;
    if r != st {
      BehindMore(base, st, r, id);
      ForwardMore(base, st.log, r.log, id);
    }
  }

  lemma FiledOrders(base: U32, cfg: Config, h: Hook, st: State, id: U32, b: Block, stats: Stats)
    requires Ordered(base, cfg, h, st) && InWindow(base, id) && BlockValid(b) && Grows(cfg, b)
    ensures Ordered(base, cfg, h, st.(blocks := st.blocks[id := b]))
    ensures Ordered(base, cfg, h, st.(blocks := st.blocks[id := b], highest := Some(id)))
  {
    FiledKeeps(base, st, id, b);
    FiledBacks(cfg, h, st, id, b, stats);
    hide Grows, Backing, Inv, Off, BlockValid, Forward;
  }

  lemma TakenOrders(base: U32, cfg: Config, egress: Egress, h: Hook, st: State, id: U32, taken: Ingested)
    requires Orderly(cfg, h) && Ordered(base, cfg, h, st) && InWindow(base, id) && BlockValid(taken.block) && Grows(cfg, taken.block)
    requires UpTo(base, st, Off(base, id))
    ensures Ordered(base, cfg, h, TakenIn(cfg, With(egress, h), st, id, taken))
  {
    hide Orderly, Ordered, Inv, Grows, BlockValid, SupersededBy, Completed, SerialDiff, With, Ascending, Off, InWindow, UpTo;
    var st1 := st.(blocks := st.blocks[id := taken.block]);
    UpToSame(base, st, st1, Off(base, id));
    UpToSame(base, st, st1.(highest := Some(id)), Off(base, id));
    FiledOrders(base, cfg, h, st, id, taken.block, st.stats);
    CountsOrder(base, cfg, h, st1);
    OrderedInv(base, cfg, h, st1.(highest := Some(id)));
    SupersedeOrders(base, cfg, egress, h, st1.(highest := Some(id)), Ascending(st1.blocks.Keys), id);
    SupersedeKeeps(base, cfg, With(egress, h), st1.(highest := Some(id)), Ascending(st1.blocks.Keys), id);
    var st2 := AfterSupersession(cfg, With(egress, h), st1, id);
    if id in st2.blocks { CompletedOrders(base, cfg, egress, h, st2, id); }
  }

  lemma OrderedInv(base: U32, cfg: Config, h: Hook, st: State)
    requires Ordered(base, cfg, h, st)
    ensures Inv(base, st)
  {
  }

  lemma CountsOrder(base: U32, cfg: Config, h: Hook, st: State)
    requires Ordered(base, cfg, h, st)
    ensures Ordered(base, cfg, h, st.(stats := st.stats.(malformed := st.stats.malformed + 1)))
  {
    MalformedKeeps(base, st);
    hide Inv, Off, Grows, Backed, Forward;
  }

  lemma StepOrders(base: U32, cfg: Config, egress: Egress, h: Hook, st: State, e: Event)
    requires Orderly(cfg, h) && Ordered(base, cfg, h, st) && (e.Push? ==> InWindow(base, e.id))
    ensures Ordered(base, cfg, h, Stepped(cfg, With(egress, h), st, e))
  {
    match e {
      case Clock(now) =>
        hide Orderly, Ordered, Ticked, Ascending, With;
        TickedOrders(base, cfg, egress, h, st, Ascending(st.blocks.Keys), now);
      case Push(id, flags, p, now) =>
        if st.finalizedUpto.None? || SerialDiff(id, st.finalizedUpto.value) > 0 {
          var b := if id in st.blocks then st.blocks[id] else NewBlock(now);
          if st.finalizedUpto.Some? { SerialIsOrder(base, id, st.finalizedUpto.value); }
          assert UpTo(base, st, Off(base, id)) && BlockValid(b);
          NewGrows(cfg, now);
          assert Grows(cfg, b);
          hide Orderly, Ordered, Grows, TakenIn, Ingest, SerialDiff, With, BlockValid, UpTo, Off, InWindow;
          IngestGrows(cfg, b, flags, p, now);
          IngestKeepsValid(cfg, b, flags, p, now);
          TakenOrders(base, cfg, egress, h, st, id, Ingest(cfg, b, flags, p, now));
        }
    }
  }

  lemma StartOrders(base: U32, cfg: Config, h: Hook)
    ensures Ordered(base, cfg, h, START)
  {
    StartKeeps(base);
  }

  lemma {:induction false} RunOrders(base: U32, cfg: Config, egress: Egress, h: Hook, events: seq<Event>)
    requires Orderly(cfg, h) && PushedIn(base, events)
    ensures Ordered(base, cfg, h, Run(cfg, With(egress, h), events))
  {
    hide Orderly, Ordered, Stepped, With, InWindow;
    if events == [] {
      StartOrders(base, cfg, h);
    } else {
      var before, e := events[..|events| - 1], events[|events| - 1];
      assert e in events;
      RunOrders(base, cfg, egress, h, before);
      StepOrders(base, cfg, egress, h, Run(cfg, With(egress, h), before), e);
    }
  }
}
