/** From framer to reassembler: what a receiver makes of a frame's packets, in any order and with duplicates. */
module FrameDelivery {
  import opened Bytes
  import opened Keys
  import opened GaussJordan
  import opened Rlc
  import opened FrameBlock
  import opened FrameFramer
  import opened ReassemblerSpec
  import opened FrameReassembler
  import opened ReassemblerRuns

  /** One frame and how the framer cut it. */
  datatype Sent = Sent(frame: seq<Byte>, k: U16, s: nat, r: nat, base: U32, armed: bool)

  /** A frame the receiver's limits admit. */
  ghost predicate Deliverable(cfg: Config, m: Sent) {
    && Geometry(m.frame, m.k, m.s) && FRAME_META <= |m.frame| <= cfg.maxFrameBytes
    && m.s <= MAX_DATA_PAYLOAD && (m.k - 1) * MIN_SYMBOL < cfg.maxFrameBytes
    && (m.r == 0 || m.k + m.r <= MAX_SYMBOLS)
  }

  /** Symbols of at least the minimum size meet the receiver's bound on k for free. */
  lemma LargeSymbolsDeliverable(cfg: Config, m: Sent)
    requires Geometry(m.frame, m.k, m.s) && FRAME_META <= |m.frame| <= cfg.maxFrameBytes
    requires MIN_SYMBOL <= m.s <= MAX_DATA_PAYLOAD && (m.r == 0 || m.k + m.r <= MAX_SYMBOLS)
    ensures Deliverable(cfg, m)
  {
    Scale(MIN_SYMBOL, m.s, m.k - 1);
  }

  ghost function Packets(m: Sent, block: U32): (p: seq<Packet>)
    requires Geometry(m.frame, m.k, m.s) && |m.frame| < 0x1_0000_0000 && (m.r == 0 || m.k + m.r <= MAX_SYMBOLS)
    ensures |p| == m.k + m.r
  {
    BlockPackets(m.frame, m.k, m.s, m.r, block, m.base, m.armed)
  }

  /** A block holding only genuine symbols of m. */
  ghost predicate Held(b: Block, m: Sent)
    requires Geometry(m.frame, m.k, m.s) && (m.r == 0 || m.k + m.r <= MAX_SYMBOLS)
  {
    && (b.k == m.k || (b.k == 0 && b.sources == map[] && b.repairs == map[]))
    && (b.s == 0 || b.s == m.s) && (b.frameLen == 0 || b.frameLen == |m.frame|)
    && (forall i :: i in b.sources ==> i < m.k && HeldSource(b, m, i))
    && (forall j :: j in b.repairs ==> j < m.r && HeldRepair(b, m, j))
  }

  ghost predicate HeldSource(b: Block, m: Sent, i: nat)
    requires Geometry(m.frame, m.k, m.s) && i < m.k && i in b.sources
  {
    ChunkLength(m.frame, m.k, m.s, i);
    b.sources[i] == Chunk(m.frame, m.s, i) && (i != m.k - 1 ==> b.s == m.s)
  }

  ghost predicate HeldRepair(b: Block, m: Sent, j: nat)
    requires Geometry(m.frame, m.k, m.s) && m.k + j < MAX_SYMBOLS && j in b.repairs
  {
    && b.repairs[j] == SymbolData(m.k, m.s, Padded(m.frame, m.k, m.s), Repair(j))
    && b.s == m.s && b.frameLen == |m.frame|
  }

  /** The block after source i, whose payload is chunk c. */
  function WithSource(b: Block, m: Sent, i: nat, c: seq<Byte>, eob: bool, now: nat): Block {
    var b' := WithEob(b.(k := m.k, s := if i != m.k - 1 then m.s else b.s), eob, now);
    if i in b.sources then b' else b'.(sources := b.sources[i := c], lastNewMs := now)
  }

  /** A genuine source symbol passes every check. */
  lemma SourceAccepted(cfg: Config, m: Sent, b: Block, i: nat, eob: bool, now: nat)
    requires Deliverable(cfg, m) && Held(b, m) && i < m.k && i * m.s < |m.frame|
    ensures var c := Chunk(m.frame, m.s, i);
            IngestSource(cfg, b, eob, SourcePayload(m.k, i, c), now) == Ingested(WithSource(b, m, i, c, eob, now), true)
  {
    ChunkLength(m.frame, m.k, m.s, i);
    SourcePayloadFields(m.k, i, Chunk(m.frame, m.s, i));
    assert m.k > 1 ==> (m.k - 1) * m.s + 1 <= cfg.maxFrameBytes;
    assert Geometry(m.frame, m.k, m.s);
    assert m.s > 0;
    hide Chunk, SourcePayload, ReadBe16, Geometry, HeldRepair, HeldSource;
  }

  /** Taking in a genuine source symbol. */
  lemma SourceTaken(cfg: Config, m: Sent, b: Block, i: nat, eob: bool, now: nat)
    requires Deliverable(cfg, m) && Held(b, m) && i < m.k
    ensures i * m.s < |m.frame|
    ensures var t := IngestSource(cfg, b, eob, SourcePayload(m.k, i, Chunk(m.frame, m.s, i)), now);
            && t.ok && Held(t.block, m) && t.block.k == m.k && t.block.firstMs == b.firstMs
            && t.block.sources.Keys == b.sources.Keys + {i} && t.block.repairs == b.repairs
  {
    ChunkLength(m.frame, m.k, m.s, i);
    SourceAccepted(cfg, m, b, i, eob, now);
    assert Geometry(m.frame, m.k, m.s);
    hide Chunk, SourcePayload, SymbolData, Padded, Geometry, IngestSource;
  }

  lemma RepairTaken(cfg: Config, m: Sent, b: Block, j: nat, eob: bool, now: nat)
    requires Deliverable(cfg, m) && Held(b, m) && j < m.r
    ensures var coded := SymbolData(m.k, m.s, Padded(m.frame, m.k, m.s), Repair(j));
            var t := IngestRepair(cfg, b, eob, RepairPayload(j, m.k, m.base, |m.frame|, coded), now);
            && t.ok && Held(t.block, m) && t.block.k == m.k && t.block.firstMs == b.firstMs
            && t.block.repairs.Keys == b.repairs.Keys + {j} && t.block.sources == b.sources
  {
    RepairPayloadFields(j, m.k, m.base, |m.frame|, SymbolData(m.k, m.s, Padded(m.frame, m.k, m.s), Repair(j)));
    assert Geometry(m.frame, m.k, m.s);
    hide Chunk, RepairPayload, ReadBe16, ReadBe32, SymbolData, Padded, Geometry, HeldSource;
  }

  // ---- what the held symbols amount to ---------------------------------------------------------

  lemma {:induction false} AscendingFull(ids: seq<nat>, k: nat, n: nat)
    requires |ids| == k && n < k
    requires forall i, j :: 0 <= i < j < k ==> ids[i] < ids[j]
    requires forall i :: 0 <= i < k ==> ids[i] < k
    ensures ids[n] >= n
    decreases n
  {
    if n > 0 { AscendingFull(ids, k, n - 1); }
  }

  lemma {:induction false} AscendingFullAbove(ids: seq<nat>, k: nat, n: nat)
    requires |ids| == k && n < k
    requires forall i, j :: 0 <= i < j < k ==> ids[i] < ids[j]
    requires forall i :: 0 <= i < k ==> ids[i] < k
    ensures ids[n] == n
    decreases k - n
  {
    AscendingFull(ids, k, n);
    if n < k - 1 { AscendingFullAbove(ids, k, n + 1); }
  }

  lemma {:induction false} ChunksJoin(b: Block, m: Sent, ids: seq<nat>, n: nat)
    requires Geometry(m.frame, m.k, m.s) && (m.r == 0 || m.k + m.r <= MAX_SYMBOLS) && Held(b, m)
    requires |ids| == m.k && n <= m.k && forall i :: 0 <= i < m.k ==> ids[i] == i && i in b.sources
    ensures Concatenated(b.sources, ids[..n]) == Joined(m.frame, m.k, m.s, n)
  {
    if n == 0 {
    } else {
      ChunksJoin(b, m, ids, n - 1);
      assert HeldSource(b, m, n - 1);
      hide HeldRepair, Geometry, Chunk;
      ConcatenatedStep(b.sources, ids, n - 1);
    }
  }

  /** All sources held: their concatenation is the frame. */
  lemma FastFrame(b: Block, m: Sent)
    requires Geometry(m.frame, m.k, m.s) && (m.r == 0 || m.k + m.r <= MAX_SYMBOLS) && Held(b, m) && |b.sources| == m.k
    ensures Concatenated(b.sources, Ascending(b.sources.Keys)) == m.frame
  {
    var ids := Ascending(b.sources.Keys);
    AscendingProperties(b.sources.Keys);
    assert |b.sources.Keys| == |b.sources|;
    forall n | 0 <= n < m.k ensures ids[n] == n && n in b.sources {
      forall i | 0 <= i < m.k ensures ids[i] < m.k { assert ids[i] in ids; }
      AscendingFullAbove(ids, m.k, n);
      assert ids[n] in ids;
    }
    hide Held, Geometry, Ascending, Concatenated;
    ChunksJoin(b, m, ids, m.k);
    JoinedPrefix(m.frame, m.k, m.s, m.k);
    assert ids[..m.k] == ids;
  }

  lemma HeldData(b: Block, m: Sent, y: Symbol)
    requires Geometry(m.frame, m.k, m.s) && (m.r == 0 || m.k + m.r <= MAX_SYMBOLS) && Held(b, m)
    requires Has(b, y) && b.s == m.s
    ensures InBlock(m.k, y) && FedData(b, y) == SymbolData(m.k, m.s, Padded(m.frame, m.k, m.s), y)
  {
    match y {
      case Source(i) =>
        assert HeldSource(b, m, i);
        SourceData(m.k, m.s, Padded(m.frame, m.k, m.s), i);
      case Repair(j) =>
        assert HeldRepair(b, m, j);
    }
  }

  /** The held symbols explain the padded frame. */
  lemma HeldExplains(b: Block, m: Sent)
    requires Geometry(m.frame, m.k, m.s) && (m.r == 0 || m.k + m.r <= MAX_SYMBOLS) && Held(b, m) && BlockValid(b)
    requires b.k == m.k && b.s == m.s && |Fed(b)| >= m.k
    ensures Explains(b, Padded(m.frame, m.k, m.s))
  {
    FedProperties(b);
    var x0 := Padded(m.frame, m.k, m.s);
    hide Fed, Held, BlockValid, SymbolData, Padded, Geometry, FedData, Has, InBlock;
    forall r | 0 <= r < m.k
      ensures InBlock(b.k, Fed(b)[r]) && Has(b, Fed(b)[r]) && FedData(b, Fed(b)[r]) == SymbolData(b.k, b.s, x0, Fed(b)[r])
    {
      HeldData(b, m, Fed(b)[r]);
    }
  }

  /** A block explains at most one frame. */
  lemma ExplainsOne(b: Block, x: Matrix, x': Matrix)
    requires BlockValid(b) && Explains(b, x) && Explains(b, x')
    ensures x == x'
  {
    FedProperties(b);
    var ys := Fed(b)[..b.k];
    hide Fed, BlockValid, SymbolData, FedData, Has, InBlock;
    SymbolsDetermineBlock(b.k, b.s, ys, x, x');
  }

  /** k symbols, not all sources: decoding gives the frame. */
  lemma FecFrame(cfg: Config, b: Block, m: Sent)
    requires Deliverable(cfg, m) && Held(b, m) && BlockValid(b) && b.k == m.k
    requires |b.sources| != m.k && |b.sources| + |b.repairs| >= m.k
    ensures Complete(cfg, b) == Whole(m.frame, Fec)
  {
    SourcesFit(b);
    FedProperties(b);
    assert |b.repairs.Keys| == |b.repairs|;
    var j := Pick(b.repairs.Keys);
    assert HeldRepair(b, m, j);
    var x0 := Padded(m.frame, m.k, m.s);
    hide Held, HeldRepair, BlockValid, Fed, Explains, Padded, Flatten, Concatenated, Ascending, Geometry;
    HeldExplains(b, m);
    forall x | Explains(b, x) ensures x == x0 { ExplainsOne(b, x, x0); }
    TrimRecovers(m.frame, m.k, m.s);
  }

  /** Completion of a block of genuine symbols: the frame itself, exactly when k symbols are held. */
  lemma HeldCompletes(cfg: Config, b: Block, m: Sent)
    requires Deliverable(cfg, m) && Held(b, m) && BlockValid(b) && b.k == m.k
    ensures |b.sources| + |b.repairs| >= m.k ==> Complete(cfg, b) == Whole(m.frame, if |b.sources| == m.k then Fast else Fec)
    ensures |b.sources| + |b.repairs| < m.k ==> Complete(cfg, b) == Pending
  {
    assert Geometry(m.frame, m.k, m.s);
    assert m.k > 0;
    if |b.sources| == m.k {
      hide Held, BlockValid, Geometry, Concatenated, Ascending, Explains;
      FastFrame(b, m);
    } else if |b.sources| + |b.repairs| >= m.k {
      hide Held, BlockValid, Complete;
      FecFrame(cfg, b, m);
    }
  }

  // ---- runs on honest traffic -------------------------------------------------------------------

  /** Packet n of a block reaches the reassembler, or time passes. */
  datatype Arrival = Arrive(id: U32, n: nat, now: nat) | Wait(now: nat)

  /** What the sender cut each block id from. */
  type Plan = U32 -> Sent

  /** Only packets the sender made arrive. */
  ghost predicate Honest(cfg: Config, plan: Plan, a: Arrival) {
    a.Arrive? ==> Deliverable(cfg, plan(a.id)) && a.n < plan(a.id).k + plan(a.id).r
  }

  ghost predicate AllHonest(cfg: Config, plan: Plan, arrivals: seq<Arrival>) {
    forall a :: a in arrivals ==> Honest(cfg, plan, a)
  }

  ghost function EventOf(cfg: Config, plan: Plan, a: Arrival): Event
    requires Honest(cfg, plan, a)
  {
    match a
    case Arrive(id, n, now) => Push(id, Packets(plan(id), id)[n].flags, Packets(plan(id), id)[n].payload, now)
    case Wait(now) => Clock(now)
  }

  ghost function EventsOf(cfg: Config, plan: Plan, arrivals: seq<Arrival>): (events: seq<Event>)
    requires AllHonest(cfg, plan, arrivals)
    ensures |events| == |arrivals|
  {
    if arrivals == [] then []
    else
      EventsOf(cfg, plan, arrivals[..|arrivals| - 1]) + [EventOf(cfg, plan, arrivals[|arrivals| - 1])]
  }

  ghost function Received(cfg: Config, env: Environment, plan: Plan, arrivals: seq<Arrival>): State
    requires AllHonest(cfg, plan, arrivals)
  {
    Run(cfg, env, EventsOf(cfg, plan, arrivals))
  }

  lemma ReceivedStep(cfg: Config, env: Environment, plan: Plan, arrivals: seq<Arrival>)
    requires AllHonest(cfg, plan, arrivals) && arrivals != []
    ensures var n := |arrivals| - 1;
            && AllHonest(cfg, plan, arrivals[..n]) && Honest(cfg, plan, arrivals[n])
            && Received(cfg, env, plan, arrivals)
               == Stepped(cfg, env, Received(cfg, env, plan, arrivals[..n]), EventOf(cfg, plan, arrivals[n]))
  {
    hide Honest, Stepped, EventOf;
    var n := |arrivals| - 1;
    var events := EventsOf(cfg, plan, arrivals);
    assert events[..n] == EventsOf(cfg, plan, arrivals[..n]);
  }

  /** The distinct packets of a block among the arrivals. */
  ghost function Distinct(arrivals: seq<Arrival>, id: U32): set<int> {
    set a | a in arrivals && a.Arrive? && a.id == id :: a.n as int
  }

  lemma DistinctStep(arrivals: seq<Arrival>, id: U32)
    requires arrivals != []
    ensures var a := arrivals[|arrivals| - 1];
            Distinct(arrivals, id)
              == Distinct(arrivals[..|arrivals| - 1], id) + (if a.Arrive? && a.id == id then {a.n as int} else {})
  {
    var n := |arrivals| - 1;
    assert arrivals == arrivals[..n] + [arrivals[n]];
    forall a | a in arrivals ensures a in arrivals[..n] || a == arrivals[n] {}
  }

  /** Every symbol the block holds arrived. */
  ghost predicate From(b: Block, k: nat, arrived: set<int>) {
    && (forall i :: i in b.sources ==> i as int in arrived)
    && (forall j :: j in b.repairs ==> k + j in arrived)
  }

  lemma {:induction false} SubsetSize<T>(s: set<T>, r: set<T>)
    requires s <= r
    ensures |s| <= |r|
    decreases |s|
  {
    if s != {} {
      var x := Pick(s);
      Smaller(s, x);
      Smaller(r, x);
      SubsetSize(s - {x}, r - {x});
    }
  }

  lemma {:induction false} SplitCount(sources: set<nat>, repairs: set<nat>, k: nat, arrived: set<int>)
    requires forall i :: i in sources ==> i < k && i as int in arrived
    requires forall j :: j in repairs ==> k + j in arrived
    ensures |sources| + |repairs| <= |arrived|
    decreases |sources| + |repairs|
  {
    if sources != {} {
      var x := Pick(sources);
      Smaller(sources, x);
      Smaller(arrived, x as int);
      SplitCount(sources - {x}, repairs, k, arrived - {x});
    } else if repairs != {} {
      var x := Pick(repairs);
      Smaller(repairs, x);
      Smaller(arrived, k + x);
      SplitCount(sources, repairs - {x}, k, arrived - {k + x});
    }
  }

  /** So at least as many distinct packets arrived as symbols are held. */
  lemma HeldCount(b: Block, k: nat, arrived: set<int>)
    requires From(b, k, arrived) && forall i :: i in b.sources ==> i < k
    ensures |b.sources| + |b.repairs| <= |arrived|
  {
    assert |b.sources| == |b.sources.Keys| && |b.repairs| == |b.repairs.Keys|;
    forall i | i in b.sources.Keys ensures i < k && i as int in arrived {}
    forall j | j in b.repairs.Keys ensures k + j in arrived {}
    hide From;
    SplitCount(b.sources.Keys, b.repairs.Keys, k, arrived);
  }

  ghost predicate Genuine(cfg: Config, plan: Plan, arrivals: seq<Arrival>, id: U32, b: Block) {
    Deliverable(cfg, plan(id)) && Held(b, plan(id)) && BlockValid(b) && From(b, plan(id).k, Distinct(arrivals, id))
  }

  /** The frame itself, out of enough of its packets. */
  ghost predicate Delivered(plan: Plan, arrivals: seq<Arrival>, e: Emission) {
    e.frame == plan(e.id).frame && |Distinct(arrivals, e.id)| >= plan(e.id).k
  }

  ghost predicate Sound(cfg: Config, plan: Plan, arrivals: seq<Arrival>, st: State) {
    && (forall id :: id in st.blocks ==> Genuine(cfg, plan, arrivals, id, st.blocks[id]))
    && (forall e :: e in st.log && e.path != Salvage ==> Delivered(plan, arrivals, e))
  }

  lemma GenuineLater(cfg: Config, plan: Plan, arrivals: seq<Arrival>, id: U32, b: Block)
    requires arrivals != [] && Genuine(cfg, plan, arrivals[..|arrivals| - 1], id, b)
    ensures Genuine(cfg, plan, arrivals, id, b)
  {
    hide Deliverable, Held, BlockValid;
    DistinctStep(arrivals, id);
  }

  lemma SoundLater(cfg: Config, plan: Plan, arrivals: seq<Arrival>, st: State)
    requires arrivals != [] && Sound(cfg, plan, arrivals[..|arrivals| - 1], st)
    ensures Sound(cfg, plan, arrivals, st)
  {
    forall id | id in st.blocks ensures Genuine(cfg, plan, arrivals, id, st.blocks[id]) {
      GenuineLater(cfg, plan, arrivals, id, st.blocks[id]);
    }
    forall e | e in st.log && e.path != Salvage ensures Delivered(plan, arrivals, e) {
      DistinctStep(arrivals, e.id);
      SubsetSize(Distinct(arrivals[..|arrivals| - 1], e.id), Distinct(arrivals, e.id));
    }
  }

  /** A log that grew by salvages has no other emissions than before. */
  lemma SalvagedOnly(log: seq<Emission>, more: seq<Emission>)
    requires |log| <= |more| && more[..|log|] == log && forall i :: |log| <= i < |more| ==> more[i].path == Salvage
    ensures forall e :: e in more && e.path != Salvage ==> e in log
  {
    forall e | e in more && e.path != Salvage ensures e in log {
      var i :| 0 <= i < |more| && more[i] == e;
      assert log[i] == e;
    }
  }

  lemma RetireSound(cfg: Config, env: Environment, plan: Plan, arrivals: seq<Arrival>, st: State, id: U32, cause: Cause)
    requires Sound(cfg, plan, arrivals, st) && id in st.blocks
    ensures Sound(cfg, plan, arrivals, Retired(env, st, id, cause))
  {
    hide Genuine, Delivered, Retired, Later;
    RetiredShape(env, st, id, cause);
    SalvagedOnly(st.log, Retired(env, st, id, cause).log);
  }

  lemma {:induction false} SupersedeSound(cfg: Config, env: Environment, plan: Plan, arrivals: seq<Arrival>,
                                          st: State, ids: seq<nat>, newest: U32)
    requires Sound(cfg, plan, arrivals, st)
    ensures Sound(cfg, plan, arrivals, SupersededBy(cfg, env, st, ids, newest))
    decreases |ids|
  {
    if ids != [] {
      hide Sound, Retired, SerialDiff;
      var id := ids[0];
      if id in st.blocks && SerialDiff(newest, id) > cfg.maxBlocksAhead {
        RetireSound(cfg, env, plan, arrivals, st, id, Superseded);
        SupersedeSound(cfg, env, plan, arrivals, Retired(env, st, id, Superseded), ids[1..], newest);
      } else {
        SupersedeSound(cfg, env, plan, arrivals, st, ids[1..], newest);
      }
    }
  }

  lemma {:induction false} TickedSound(cfg: Config, env: Environment, plan: Plan, arrivals: seq<Arrival>, st: State,
                                       ids: seq<nat>, now: nat)
    requires Sound(cfg, plan, arrivals, st)
    ensures Sound(cfg, plan, arrivals, Ticked(cfg, env, st, ids, now))
    decreases |ids|
  {
    if ids != [] {
      hide Sound, Retired;
      var id := ids[0];
      if id in st.blocks && now >= st.blocks[id].firstMs + cfg.deadlineMs {
        RetireSound(cfg, env, plan, arrivals, st, id, Deadline);
        TickedSound(cfg, env, plan, arrivals, Retired(env, st, id, Deadline), ids[1..], now);
      } else {
        TickedSound(cfg, env, plan, arrivals, st, ids[1..], now);
      }
    }
  }

  lemma GenuineCompletes(cfg: Config, plan: Plan, arrivals: seq<Arrival>, id: U32, b: Block)
    requires Genuine(cfg, plan, arrivals, id, b) && b.k == plan(id).k
    ensures Complete(cfg, b) == Pending
            || (|Distinct(arrivals, id)| >= plan(id).k
                && (Complete(cfg, b) == Whole(plan(id).frame, Fast) || Complete(cfg, b) == Whole(plan(id).frame, Fec)))
  {
    var m := plan(id);
    assert forall i :: i in b.sources ==> i < m.k;
    hide BlockValid, From, Distinct, Complete, Held;
    HeldCount(b, m.k, Distinct(arrivals, id));
    HeldCompletes(cfg, b, m);
  }

  lemma CompleteSound(cfg: Config, env: Environment, plan: Plan, arrivals: seq<Arrival>, st: State, id: U32)
    requires Sound(cfg, plan, arrivals, st) && id in st.blocks && st.blocks[id].k == plan(id).k
    ensures Sound(cfg, plan, arrivals, Completed(cfg, env, st, id))
  {
    hide Genuine, Complete, Distinct, Later;
    GenuineCompletes(cfg, plan, arrivals, id, st.blocks[id]);
  }

  lemma PacketIs(m: Sent, id: U32, n: nat)
    requires Geometry(m.frame, m.k, m.s) && |m.frame| < 0x1_0000_0000 && (m.r == 0 || m.k + m.r <= MAX_SYMBOLS) && n < m.k + m.r
    ensures n < m.k ==> Packets(m, id)[n] == SourcePacket(m.frame, m.k, m.s, m.r, n, id, m.base, m.armed)
    ensures n >= m.k ==> Packets(m, id)[n] == RepairPacket(m.frame, m.k, m.s, m.r, n - m.k, id, m.base, m.armed)
  {
    hide Geometry, SourcePacket, RepairPacket;
  }

  lemma SourcePacketTaken(cfg: Config, m: Sent, id: U32, b: Block, n: nat, now: nat)
    requires Deliverable(cfg, m) && Held(b, m) && n < m.k
    ensures var p := Packets(m, id)[n];
            var t := Ingest(cfg, b, p.flags, p.payload, now);
            && t.ok && Held(t.block, m) && t.block.k == m.k && t.block.firstMs == b.firstMs
            && t.block.sources.Keys == b.sources.Keys + {n} && t.block.repairs == b.repairs
  {
    assert Geometry(m.frame, m.k, m.s);
    PacketIs(m, id, n);
    var p := Packets(m, id)[n];
    hide Packets, BlockValid, IngestSource, IngestRepair, SourcePayload, RepairPayload, Deliverable, Geometry, Held, Chunk, Padded, SymbolData;
    SourceTaken(cfg, m, b, n, p.flags.endOfBlock, now);
  }

  lemma RepairPacketTaken(cfg: Config, m: Sent, id: U32, b: Block, n: nat, now: nat)
    requires Deliverable(cfg, m) && Held(b, m) && m.k <= n < m.k + m.r
    ensures var p := Packets(m, id)[n];
            var t := Ingest(cfg, b, p.flags, p.payload, now);
            && t.ok && Held(t.block, m) && t.block.k == m.k && t.block.firstMs == b.firstMs
            && t.block.sources == b.sources && t.block.repairs.Keys == b.repairs.Keys + {n - m.k}
  {
    assert Geometry(m.frame, m.k, m.s);
    PacketIs(m, id, n);
    var p := Packets(m, id)[n];
    hide Packets, BlockValid, IngestSource, IngestRepair, SourcePayload, RepairPayload, Deliverable, Geometry, Held, Chunk, Padded, SymbolData;
    RepairTaken(cfg, m, b, n - m.k, p.flags.endOfBlock, now);
  }

  /** What one packet does to its block. */
  lemma PacketTaken(cfg: Config, m: Sent, id: U32, b: Block, n: nat, now: nat)
    requires Deliverable(cfg, m) && Held(b, m) && n < m.k + m.r && BlockValid(b)
    ensures var p := Packets(m, id)[n];
            var t := Ingest(cfg, b, p.flags, p.payload, now);
            && t.ok && Held(t.block, m) && t.block.k == m.k && t.block.firstMs == b.firstMs && BlockValid(t.block)
            && t.block.sources.Keys == b.sources.Keys + (if n < m.k then {n} else {})
            && t.block.repairs.Keys == b.repairs.Keys + (if n < m.k then {} else {n - m.k})
  {
    assert Geometry(m.frame, m.k, m.s);
    hide BlockValid, Ingest, Deliverable, Geometry, Held, Packets;
    var p := Packets(m, id)[n];
    IngestKeepsValid(cfg, b, p.flags, p.payload, now);
    if n < m.k { SourcePacketTaken(cfg, m, id, b, n, now); } else { RepairPacketTaken(cfg, m, id, b, n, now); }
  }

  lemma FiledSound(cfg: Config, plan: Plan, arrivals: seq<Arrival>, st: State, id: U32, b: Block)
    requires Sound(cfg, plan, arrivals, st) && Genuine(cfg, plan, arrivals, id, b)
    ensures Sound(cfg, plan, arrivals, st.(blocks := st.blocks[id := b]))
    ensures Sound(cfg, plan, arrivals, st.(blocks := st.blocks[id := b], highest := Some(id)))
  {
    hide Genuine, Delivered;
  }

  /** A block never loses its geometry to supersession. */
  lemma {:induction false} SupersedeKeepsBlocks(cfg: Config, env: Environment, st: State, ids: seq<nat>, newest: U32)
    ensures forall id :: id in SupersededBy(cfg, env, st, ids, newest).blocks ==>
              id in st.blocks && SupersededBy(cfg, env, st, ids, newest).blocks[id] == st.blocks[id]
    decreases |ids|
  {
    hide Retired;
    if ids != [] {
      var id := ids[0];
      if id in st.blocks && SerialDiff(newest, id) > cfg.maxBlocksAhead {
        RetiredShape(env, st, id, Superseded);
        SupersedeKeepsBlocks(cfg, env, Retired(env, st, id, Superseded), ids[1..], newest);
      } else {
        SupersedeKeepsBlocks(cfg, env, st, ids[1..], newest);
      }
    }
  }

  lemma TakenSound(cfg: Config, env: Environment, plan: Plan, arrivals: seq<Arrival>, st: State, id: U32, b: Block)
    requires Sound(cfg, plan, arrivals, st) && Genuine(cfg, plan, arrivals, id, b) && b.k == plan(id).k
    ensures Sound(cfg, plan, arrivals, TakenIn(cfg, env, st, id, Ingested(b, true)))
  {
    hide Sound, Genuine, SerialDiff, SupersededBy, Completed, Ascending;
    var st1 := st.(blocks := st.blocks[id := b]);
    FiledSound(cfg, plan, arrivals, st, id, b);
    var st2 := AfterSupersession(cfg, env, st1, id);
    if st1.highest.None? || SerialDiff(id, st1.highest.value) > 0 {
      SupersedeSound(cfg, env, plan, arrivals, st1.(highest := Some(id)), Ascending(st1.blocks.Keys), id);
      SupersedeKeepsBlocks(cfg, env, st1.(highest := Some(id)), Ascending(st1.blocks.Keys), id);
    }
    if id in st2.blocks { CompleteSound(cfg, env, plan, arrivals, st2, id); }
  }

  lemma NewBlockHeld(m: Sent, now: nat)
    requires Geometry(m.frame, m.k, m.s) && (m.r == 0 || m.k + m.r <= MAX_SYMBOLS)
    ensures Held(NewBlock(now), m) && BlockValid(NewBlock(now)) && From(NewBlock(now), m.k, {})
  {
  }

  lemma FromMore(b: Block, b': Block, k: nat, n: nat, before: set<int>, arrived: set<int>)
    requires From(b, k, before) && arrived == before + {n}
    requires b'.sources.Keys == b.sources.Keys + (if n < k then {n} else {})
    requires b'.repairs.Keys == b.repairs.Keys + (if n < k then {} else {n - k})
    ensures From(b', k, arrived)
  {
    forall i | i in b'.sources ensures i as int in arrived { assert i in b'.sources.Keys; }
    forall j | j in b'.repairs ensures k + j in arrived { assert j in b'.repairs.Keys; }
  }

  /** A block after one more of its packets is still genuine. */
  lemma PacketGenuine(cfg: Config, plan: Plan, arrivals: seq<Arrival>, id: U32, n: nat, now: nat, b: Block)
    requires AllHonest(cfg, plan, arrivals) && arrivals != [] && arrivals[|arrivals| - 1] == Arrive(id, n, now)
    requires Deliverable(cfg, plan(id)) && n < plan(id).k + plan(id).r
    requires Held(b, plan(id)) && BlockValid(b) && From(b, plan(id).k, Distinct(arrivals[..|arrivals| - 1], id))
    ensures var p := Packets(plan(id), id)[n];
            var t := Ingest(cfg, b, p.flags, p.payload, now);
            t.ok && t.block.k == plan(id).k && Genuine(cfg, plan, arrivals, id, t.block)
  {
    var m := plan(id);
    assert Geometry(m.frame, m.k, m.s);
    hide Ingest, Held, BlockValid, Packets, Distinct, From, Deliverable, Geometry;
    DistinctStep(arrivals, id);
    PacketTaken(cfg, m, id, b, n, now);
    var p := Packets(m, id)[n];
    var t := Ingest(cfg, b, p.flags, p.payload, now);
    FromMore(b, t.block, m.k, n, Distinct(arrivals[..|arrivals| - 1], id), Distinct(arrivals, id));
  }

  lemma PushSound(cfg: Config, env: Environment, plan: Plan, arrivals: seq<Arrival>, st: State, id: U32, n: nat,
                  now: nat)
    requires AllHonest(cfg, plan, arrivals) && arrivals != [] && arrivals[|arrivals| - 1] == Arrive(id, n, now)
    requires Deliverable(cfg, plan(id)) && n < plan(id).k + plan(id).r
    requires Sound(cfg, plan, arrivals[..|arrivals| - 1], st)
    ensures var p := Packets(plan(id), id)[n];
            Sound(cfg, plan, arrivals, Pushed(cfg, env, st, id, p.flags, p.payload, now))
  {
    SoundLater(cfg, plan, arrivals, st);
    if !(st.finalizedUpto.Some? && SerialDiff(id, st.finalizedUpto.value) <= 0) {
      var b := if id in st.blocks then st.blocks[id] else NewBlock(now);
      assert id in st.blocks ==> Genuine(cfg, plan, arrivals[..|arrivals| - 1], id, b);
      NewBlockHeld(plan(id), now);
      hide TakenIn, Sound, Held, BlockValid, Distinct, Ingest, Packets, Deliverable;
      PacketGenuine(cfg, plan, arrivals, id, n, now, b);
      var p := Packets(plan(id), id)[n];
      TakenSound(cfg, env, plan, arrivals, st, id, Ingest(cfg, b, p.flags, p.payload, now).block);
    }
  }

  lemma {:induction false} ReceivedSound(cfg: Config, env: Environment, plan: Plan, arrivals: seq<Arrival>)
    requires AllHonest(cfg, plan, arrivals)
    ensures Sound(cfg, plan, arrivals, Received(cfg, env, plan, arrivals))
  {
    if arrivals != [] {
      var a := arrivals[|arrivals| - 1];
      var before := arrivals[..|arrivals| - 1];
      assert Honest(cfg, plan, a);
      ReceivedStep(cfg, env, plan, arrivals);
      ReceivedSound(cfg, env, plan, before);
      var st := Received(cfg, env, plan, before);
      hide Sound, Pushed, Ticked, Deliverable, Received, Packets, AllHonest;
      match a {
        case Arrive(id, n, now) => PushSound(cfg, env, plan, arrivals, st, id, n, now);
        case Wait(now) =>
          SoundLater(cfg, plan, arrivals, st);
          TickedSound(cfg, env, plan, arrivals, st, Ascending(st.blocks.Keys), now);
      }
    }
  }

  /**
   * Whatever the order, loss, duplication and interleaving of the packets of any number of frames, and whatever
   * egress and hook do: a frame handed on without salvage is the sender's frame of that block, byte for byte, and at
   * least k distinct packets of it arrived.
   */
  lemma OnlySentFrames(cfg: Config, env: Environment, plan: Plan, arrivals: seq<Arrival>)
    requires AllHonest(cfg, plan, arrivals)
    ensures forall e :: e in Received(cfg, env, plan, arrivals).log && e.path != Salvage ==>
              e.frame == plan(e.id).frame && |Distinct(arrivals, e.id)| >= plan(e.id).k
    ensures env.hook.None? ==> forall e :: e in Received(cfg, env, plan, arrivals).log ==> e.path != Salvage
  {
    ReceivedSound(cfg, env, plan, arrivals);
    if env.hook.None? { NoHookRun(cfg, env, EventsOf(cfg, plan, arrivals)); }
  }

  // ---- without the hook nothing is salvaged --------------------------------------------------------

  ghost predicate Unsalvaged(st: State) {
    forall e :: e in st.log ==> e.path != Salvage
  }

  lemma {:induction false} NoHookSupersede(cfg: Config, env: Environment, st: State, ids: seq<nat>, newest: U32)
    requires env.hook.None? && Unsalvaged(st)
    ensures Unsalvaged(SupersededBy(cfg, env, st, ids, newest))
    decreases |ids|
  {
    hide Retired, SerialDiff;
    if ids != [] {
      var id := ids[0];
      if id in st.blocks && SerialDiff(newest, id) > cfg.maxBlocksAhead {
        RetiredShape(env, st, id, Superseded);
        NoHookSupersede(cfg, env, Retired(env, st, id, Superseded), ids[1..], newest);
      } else {
        NoHookSupersede(cfg, env, st, ids[1..], newest);
      }
    }
  }

  lemma {:induction false} NoHookTicked(cfg: Config, env: Environment, st: State, ids: seq<nat>, now: nat)
    requires env.hook.None? && Unsalvaged(st)
    ensures Unsalvaged(Ticked(cfg, env, st, ids, now))
    decreases |ids|
  {
    hide Retired, SerialDiff;
    if ids != [] {
      var id := ids[0];
      if id in st.blocks && now >= st.blocks[id].firstMs + cfg.deadlineMs {
        RetiredShape(env, st, id, Deadline);
        NoHookTicked(cfg, env, Retired(env, st, id, Deadline), ids[1..], now);
      } else {
        NoHookTicked(cfg, env, st, ids[1..], now);
      }
    }
  }

  lemma NoHookPushed(cfg: Config, env: Environment, st: State, id: U32, flags: DataFlags, p: seq<Byte>, now: nat)
    requires env.hook.None? && Unsalvaged(st)
    ensures Unsalvaged(Pushed(cfg, env, st, id, flags, p, now))
  {
    hide Ingest, SerialDiff, SupersededBy, Ascending, Later;
    var b := if id in st.blocks then st.blocks[id] else NewBlock(now);
    var st1 := st.(blocks := st.blocks[id := Ingest(cfg, b, flags, p, now).block]);
    NoHookSupersede(cfg, env, st1.(highest := Some(id)), Ascending(st1.blocks.Keys), id);
    PathsOfCompletion(cfg);
  }

  lemma PathsOfCompletion(cfg: Config)
    ensures forall b :: Complete(cfg, b).Whole? ==> Complete(cfg, b).path != Salvage
  {
  }

  lemma {:induction false} NoHookRun(cfg: Config, env: Environment, events: seq<Event>)
    requires env.hook.None?
    ensures Unsalvaged(Run(cfg, env, events))
  {
    if events != [] {
      var st, e := Run(cfg, env, events[..|events| - 1]), events[|events| - 1];
      NoHookRun(cfg, env, events[..|events| - 1]);
      hide Unsalvaged, Pushed, Ticked;
      match e {
        case Push(id, flags, p, now) => NoHookPushed(cfg, env, st, id, flags, p, now);
        case Clock(now) => NoHookTicked(cfg, env, st, Ascending(st.blocks.Keys), now);
      }
    }
  }

  // ---- one frame by itself --------------------------------------------------------------------------

  /** A packet of the block, not before time zero, or a clock ahead of the block's deadline. */
  ghost predicate Due(cfg: Config, m: Sent, id: U32, zero: nat, a: Arrival) {
    match a
    case Arrive(i, n, now) => i == id && n < m.k + m.r && now >= zero
    case Wait(now) => now < zero + cfg.deadlineMs
  }

  ghost predicate OneFrame(cfg: Config, m: Sent, id: U32, zero: nat, arrivals: seq<Arrival>) {
    forall a :: a in arrivals ==> Due(cfg, m, id, zero, a)
  }

  /** Sources and repairs split exactly the packets that arrived. */
  ghost predicate ExactKeys(sources: set<nat>, repairs: set<nat>, k: nat, arrived: set<int>) {
    && |sources| + |repairs| == |arrived|
    && (forall n: nat :: n in arrived <==> if n < k then n in sources else n - k in repairs)
    && (forall i :: i in sources ==> i < k)
  }

  /** The block holds exactly the packets that arrived. */
  ghost predicate Exactly(b: Block, k: nat, arrived: set<int>) {
    ExactKeys(b.sources.Keys, b.repairs.Keys, k, arrived)
  }

  /** Collecting: fewer than k distinct packets so far, and nothing emitted. */
  ghost predicate Collecting(m: Sent, id: U32, zero: nat, st: State, arrived: set<int>)
    requires Geometry(m.frame, m.k, m.s) && (m.r == 0 || m.k + m.r <= MAX_SYMBOLS)
  {
    && |arrived| < m.k && st.log == [] && st.finalizedUpto.None?
    && if arrived == {} then st == START
       else
         && st.blocks.Keys == {id} && st.highest == Some(id)
         && Held(st.blocks[id], m) && BlockValid(st.blocks[id]) && st.blocks[id].firstMs >= zero
         && Exactly(st.blocks[id], m.k, arrived)
  }

  /** Done: the frame was handed to the egress once and its block is closed. */
  ghost predicate Finished(env: Environment, m: Sent, id: U32, st: State, arrived: set<int>) {
    && |arrived| >= m.k && st.blocks == map[] && st.finalizedUpto == Some(id)
    && exists path :: path != Salvage && st.log == [Emission(id, m.frame, env.egress(0, m.frame), env.egress(0, m.frame), path)]
  }

  lemma ExactSource(sources: set<nat>, repairs: set<nat>, k: nat, n: nat, arrived: set<int>)
    requires ExactKeys(sources, repairs, k, arrived) && n < k
    ensures ExactKeys(sources + {n}, repairs, k, arrived + {n})
  {
    assert n in arrived <==> n in sources;
    if n in arrived {
      assert sources + {n} == sources && arrived + {n} == arrived;
    }
  }

  lemma ExactRepair(sources: set<nat>, repairs: set<nat>, k: nat, n: nat, arrived: set<int>)
    requires ExactKeys(sources, repairs, k, arrived) && n >= k
    ensures ExactKeys(sources, repairs + {n - k}, k, arrived + {n})
  {
    assert n in arrived <==> n - k in repairs;
    if n in arrived {
      assert repairs + {n - k} == repairs && arrived + {n} == arrived;
    }
  }

  lemma ExactlyMore(b: Block, b': Block, k: nat, n: nat, arrived: set<int>)
    requires Exactly(b, k, arrived)
    requires b'.sources.Keys == b.sources.Keys + (if n < k then {n} else {})
    requires b'.repairs.Keys == b.repairs.Keys + (if n < k then {} else {n - k})
    ensures Exactly(b', k, arrived + {n})
  {
    hide ExactKeys;
    if n < k {
      ExactSource(b.sources.Keys, b.repairs.Keys, k, n, arrived);
      assert b'.repairs.Keys == b.repairs.Keys;
    } else {
      ExactRepair(b.sources.Keys, b.repairs.Keys, k, n, arrived);
      assert b'.sources.Keys == b.sources.Keys;
    }
  }

  lemma {:induction false} NothingSuperseded(cfg: Config, env: Environment, st: State, ids: seq<nat>, newest: U32)
    requires st.blocks.Keys == {newest}
    ensures SupersededBy(cfg, env, st, ids, newest) == st
    decreases |ids|
  {
    assert SerialDiff(newest, newest) == 0;
    hide Retired, SerialDiff;
    if ids != [] {
      assert ids[0] in st.blocks ==> ids[0] in st.blocks.Keys;
      NothingSuperseded(cfg, env, st, ids[1..], newest);
    }
  }

  lemma {:induction false} NothingExpired(cfg: Config, env: Environment, st: State, ids: seq<nat>, now: nat)
    requires forall id :: id in st.blocks ==> now < st.blocks[id].firstMs + cfg.deadlineMs
    ensures Ticked(cfg, env, st, ids, now) == st
    decreases |ids|
  {
    hide Retired;
    if ids != [] { NothingExpired(cfg, env, st, ids[1..], now); }
  }

  function BlockOf(st: State, id: U32, now: nat): Block {
    if id in st.blocks then st.blocks[id] else NewBlock(now)
  }

  lemma CollectingBlock(m: Sent, id: U32, zero: nat, st: State, arrived: set<int>, now: nat)
    requires Geometry(m.frame, m.k, m.s) && (m.r == 0 || m.k + m.r <= MAX_SYMBOLS)
    requires now >= zero && Collecting(m, id, zero, st, arrived)
    ensures var b := BlockOf(st, id, now); Held(b, m) && BlockValid(b) && b.firstMs >= zero && Exactly(b, m.k, arrived)
  {
    hide Held, BlockValid, Geometry;
    NewBlockHeld(m, now);
    if arrived == {} {
      assert Exactly(NewBlock(now), m.k, {});
    } else {
      assert id in st.blocks.Keys;
    }
  }

  lemma PacketCollected(cfg: Config, m: Sent, id: U32, b: Block, n: nat, now: nat, arrived: set<int>)
    requires Deliverable(cfg, m) && Held(b, m) && n < m.k + m.r && BlockValid(b) && Exactly(b, m.k, arrived)
    ensures var p := Packets(m, id)[n];
            var t := Ingest(cfg, b, p.flags, p.payload, now);
            && t.ok && Held(t.block, m) && t.block.k == m.k && t.block.firstMs == b.firstMs && BlockValid(t.block)
            && Exactly(t.block, m.k, arrived + {n})
  {
    assert Geometry(m.frame, m.k, m.s);
    hide Ingest, Packets, Held, BlockValid, Exactly, Deliverable, Geometry;
    var p := Packets(m, id)[n];
    PacketTaken(cfg, m, id, b, n, now);
    ExactlyMore(b, Ingest(cfg, b, p.flags, p.payload, now).block, m.k, n, arrived);
  }

  lemma PushedOpen(cfg: Config, env: Environment, st: State, id: U32, flags: DataFlags, p: seq<Byte>, now: nat)
    requires st.finalizedUpto.None?
    ensures Pushed(cfg, env, st, id, flags, p, now)
      == TakenIn(cfg, env, st, id, Ingest(cfg, BlockOf(st, id, now), flags, p, now))
  {
    hide TakenIn, Ingest;
  }

  /** The step that brings a packet to a collecting block. */
  lemma CollectStep(cfg: Config, env: Environment, m: Sent, id: U32, zero: nat, st: State, arrived: set<int>, n: nat,
                    now: nat)
    requires Deliverable(cfg, m) && n < m.k + m.r && now >= zero && Collecting(m, id, zero, st, arrived)
    ensures var p := Packets(m, id)[n];
            var st' := Pushed(cfg, env, st, id, p.flags, p.payload, now);
            Collecting(m, id, zero, st', arrived + {n}) || Finished(env, m, id, st', arrived + {n})
  {
    assert Geometry(m.frame, m.k, m.s);
    assert st.finalizedUpto.None?;
    hide Ingest, Packets, Held, BlockValid, Exactly, Deliverable, Geometry, Collecting, TakenIn, Pushed, Finished, BlockOf;
    var p := Packets(m, id)[n];
    var b := BlockOf(st, id, now);
    CollectingBlock(m, id, zero, st, arrived, now);
    PacketCollected(cfg, m, id, b, n, now, arrived);
    PushedOpen(cfg, env, st, id, p.flags, p.payload, now);
    CollectTaken(cfg, env, m, id, zero, st, arrived, n, Ingest(cfg, b, p.flags, p.payload, now).block);
  }

  lemma CollectTaken(cfg: Config, env: Environment, m: Sent, id: U32, zero: nat, st: State, arrived: set<int>,
                     n: nat, b: Block)
    requires Deliverable(cfg, m) && Collecting(m, id, zero, st, arrived)
    requires Held(b, m) && BlockValid(b) && b.k == m.k && b.firstMs >= zero && Exactly(b, m.k, arrived + {n})
    ensures var st' := TakenIn(cfg, env, st, id, Ingested(b, true));
            Collecting(m, id, zero, st', arrived + {n}) || Finished(env, m, id, st', arrived + {n})
  {
    assert Geometry(m.frame, m.k, m.s);
    assert |b.sources| + |b.repairs| == |arrived + {n}|;
    assert n in arrived + {n};
    assert SerialDiff(id, id) == 0;
    var st1 := st.(blocks := st.blocks[id := b], highest := Some(id));
    hide SupersededBy, Ascending, Complete, Held, BlockValid, Exactly, Deliverable, Geometry, SerialDiff;
    assert st1.blocks.Keys == {id};
    NothingSuperseded(cfg, env, st1, Ascending(st1.blocks.Keys), id);
    assert AfterSupersession(cfg, env, st.(blocks := st.blocks[id := b]), id) == st1;
    hide AfterSupersession;
    HeldCompletes(cfg, b, m);
    if |arrived + {n}| >= m.k { ClosedOnce(cfg, env, m, id, st1); }
  }

  lemma ClosedOnce(cfg: Config, env: Environment, m: Sent, id: U32, st: State)
    requires st.blocks.Keys == {id} && st.log == [] && st.finalizedUpto.None?
    requires Complete(cfg, st.blocks[id]) == Whole(m.frame, Fast) || Complete(cfg, st.blocks[id]) == Whole(m.frame, Fec)
    ensures var st' := Completed(cfg, env, st, id);
            && st'.blocks == map[] && st'.finalizedUpto == Some(id)
            && exists path :: path != Salvage && st'.log == [Emission(id, m.frame, env.egress(0, m.frame), env.egress(0, m.frame), path)]
  {
    hide Complete;
    assert st.blocks - {id} == map[];
    var path := Complete(cfg, st.blocks[id]).path;
    assert Completed(cfg, env, st, id).log == [Emission(id, m.frame, env.egress(0, m.frame), env.egress(0, m.frame), path)];
  }

  lemma OneFrameHonest(cfg: Config, plan: Plan, id: U32, zero: nat, arrivals: seq<Arrival>)
    requires OneFrame(cfg, plan(id), id, zero, arrivals) && Deliverable(cfg, plan(id))
    ensures AllHonest(cfg, plan, arrivals)
  {
    hide Deliverable;
    forall a | a in arrivals ensures Honest(cfg, plan, a) {
      assert Due(cfg, plan(id), id, zero, a);
      if a.Arrive? { assert a.id == id; }
    }
  }

  /**
   * A frame cut by the framer, its packets arriving in any order with any duplicates: the frame itself is handed to
   * the egress exactly once, when the k-th distinct packet arrives, and nothing before.
   */
  lemma {:induction false} FrameDeliveredOnce(cfg: Config, env: Environment, plan: Plan, id: U32, zero: nat,
                                              arrivals: seq<Arrival>)
    requires OneFrame(cfg, plan(id), id, zero, arrivals) && Deliverable(cfg, plan(id))
    ensures AllHonest(cfg, plan, arrivals)
    ensures var st, arrived := Received(cfg, env, plan, arrivals), Distinct(arrivals, id);
            if |arrived| < plan(id).k then Collecting(plan(id), id, zero, st, arrived)
            else Finished(env, plan(id), id, st, arrived)
    decreases |arrivals|
  {
    var m := plan(id);
    OneFrameHonest(cfg, plan, id, zero, arrivals);
    assert Geometry(m.frame, m.k, m.s);
    if arrivals == [] {
      assert Distinct(arrivals, id) == {};
    } else {
      var before, a := arrivals[..|arrivals| - 1], arrivals[|arrivals| - 1];
      assert a in arrivals;
      forall d | d in before ensures Due(cfg, m, id, zero, d) { assert d in arrivals; }
      FrameDeliveredOnce(cfg, env, plan, id, zero, before);
      ReceivedStep(cfg, env, plan, arrivals);
      DistinctStep(arrivals, id);
      hide OneFrame, Due, Deliverable, Geometry, Received, Distinct, EventOf, Stepped, Held, BlockValid, AllHonest;
      OneStep(cfg, env, plan, id, zero, Received(cfg, env, plan, before), Distinct(before, id), a);
    }
  }

  lemma OneStep(cfg: Config, env: Environment, plan: Plan, id: U32, zero: nat, st: State, arrived: set<int>, a: Arrival)
    requires Deliverable(cfg, plan(id)) && Due(cfg, plan(id), id, zero, a) && Honest(cfg, plan, a)
    requires Collecting(plan(id), id, zero, st, arrived) || Finished(env, plan(id), id, st, arrived)
    ensures var st' := Stepped(cfg, env, st, EventOf(cfg, plan, a));
            var arrived' := arrived + if a.Arrive? && a.id == id then {a.n as int} else {};
            Collecting(plan(id), id, zero, st', arrived') || Finished(env, plan(id), id, st', arrived')
  {
    var m := plan(id);
    assert Geometry(m.frame, m.k, m.s) && (m.r == 0 || m.k + m.r <= MAX_SYMBOLS);
    match a {
      case Arrive(i, n, now) =>
        hide Packets, Held, BlockValid, Exactly, Deliverable, TakenIn;
        if Collecting(m, id, zero, st, arrived) {
          CollectStep(cfg, env, m, id, zero, st, arrived, n, now);
        } else {
          SubsetSize(arrived, arrived + {n});
        }
      case Wait(now) =>
        hide Held, BlockValid, Exactly, Deliverable, Ascending;
        assert arrived + {} == arrived;
        NothingExpired(cfg, env, st, Ascending(st.blocks.Keys), now);
    }
  }
}
