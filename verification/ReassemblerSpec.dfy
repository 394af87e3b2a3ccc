/** What the frame reassembler does, as a function of its state. */
module ReassemblerSpec {
  import opened Bytes
  import opened Keys
  import opened GaussJordan
  import opened Rlc
  import opened FrameBlock

  /** A block distance that survives the cast to a signed 32-bit integer. */
  type Ahead = n: int | 0 <= n < 0x8000_0000

  datatype Config = Config(deadlineMs: nat, maxBlocksAhead: Ahead, maxFrameBytes: U32)

  /** One open block: geometry learned so far and the symbols held. */
  datatype Block = Block(k: U16, s: nat, frameLen: U32, firstMs: nat, lastNewMs: nat, eobMs: Option<nat>,
                         sources: map<nat, seq<Byte>>, repairs: map<nat, seq<Byte>>)

  function NewBlock(now: nat): Block {
    Block(0, 0, 0, now, 0, None, map[], map[])
  }

  datatype Path = Fast | Fec | Salvage

  /** One attempt to hand a frame to the local egress: whether it was taken, and whether it counts as delivered. */
  datatype Emission = Emission(id: U32, frame: seq<Byte>, accepted: bool, credited: bool, path: Path)

  datatype Stats = Stats(delivered: nat, fast: nat, fec: nat, salvaged: nat, rejected: nat, unrecoverable: nat,
                         superseded: nat, deadline: nat, malformed: nat)

  datatype SalvageView = SalvageView(id: U32, k: U16, s: nat, frameLen: U32, sources: map<nat, seq<Byte>>)

  /** What a salvage hook did: the frames it tried to emit, in order, and what it returned. */
  datatype SalvageResult = SalvageResult(frames: seq<seq<Byte>>, repaired: bool)

  /** The outside: whether the egress takes the n-th attempt, and what the hook does after n attempts. */
  datatype Environment = Environment(egress: (nat, seq<Byte>) -> bool, hook: Option<(nat, SalvageView) -> SalvageResult>)

  datatype State = State(blocks: map<U32, Block>, highest: Option<U32>, lastEmitted: Option<U32>,
                         finalizedUpto: Option<U32>, log: seq<Emission>, stats: Stats)

  const START := State(map[], None, None, None, [], Stats(0, 0, 0, 0, 0, 0, 0, 0, 0))

  // ---- taking a symbol in -------------------------------------------------------------------

  datatype Ingested = Ingested(block: Block, ok: bool)

  function WithEob(b: Block, eob: bool, now: nat): Block {
    if eob && b.eobMs.None? then b.(eobMs := Some(now)) else b
  }

  function IngestRepair(cfg: Config, b: Block, eob: bool, p: seq<Byte>, now: nat): Ingested {
    if |p| <= REPAIR_SUBHEADER then Ingested(b, false)
    else
      var k, frameLen, j, coded := ReadBe16(p, 1), ReadBe32(p, 7), p[0], |p| - REPAIR_SUBHEADER;
      if k == 0 || k > MAX_SYMBOLS || frameLen < FRAME_META || frameLen > cfg.maxFrameBytes
         || coded > MAX_DATA_PAYLOAD || k + j >= MAX_SYMBOLS then Ingested(b, false)
      else if (b.k != 0 && b.k != k) || (b.frameLen != 0 && b.frameLen != frameLen) || (b.s != 0 && b.s != coded) then
        Ingested(b, false)
      else
        var b' := WithEob(b.(k := k, frameLen := frameLen, s := coded), eob, now);
        if j in b.repairs then Ingested(b', true)
        else Ingested(b'.(repairs := b.repairs[j := p[REPAIR_SUBHEADER..]], lastNewMs := now), true)
  }

  function IngestSource(cfg: Config, b: Block, eob: bool, p: seq<Byte>, now: nat): Ingested {
    if |p| < SOURCE_SUBHEADER then Ingested(b, false)
    else
      var k, i, n := ReadBe16(p, 0), ReadBe16(p, 2), |p| - SOURCE_SUBHEADER;
      var least := if k > 1 then (k - 1) * MIN_SYMBOL + 1 else 1;
      if k == 0 || i >= k || least > cfg.maxFrameBytes || (b.k != 0 && b.k != k) then Ingested(b, false)
      else
        var b1 := b.(k := k);
        if n == 0 || n > MAX_DATA_PAYLOAD || (b.s != 0 && ((i != k - 1 && n != b.s) || (i == k - 1 && n > b.s))) then
          Ingested(b1, false)
        else
          var b2 := if i != k - 1 && b.s == 0 then b1.(s := n) else b1;
          if k > 1 && b2.s > 0 && (k - 1) * b2.s + 1 > cfg.maxFrameBytes then Ingested(b2, false)
          else
            var b3 := WithEob(b2, eob, now);
            if i in b.sources then Ingested(b3, true)
            else Ingested(b3.(sources := b.sources[i := p[SOURCE_SUBHEADER..]], lastNewMs := now), true)
  }

  function Ingest(cfg: Config, b: Block, flags: DataFlags, p: seq<Byte>, now: nat): Ingested {
    if flags.fecRepair then IngestRepair(cfg, b, flags.endOfBlock, p, now)
    else IngestSource(cfg, b, flags.endOfBlock, p, now)
  }

  /** What every block satisfies, whatever was pushed. */
  ghost predicate BlockValid(b: Block) {
    && (forall i :: i in b.sources ==> i < b.k)
    && (forall j :: j in b.repairs ==> |b.repairs[j]| == b.s && b.s > 0 && b.k > 0 && b.k + j < MAX_SYMBOLS)
    && (b.repairs != map[] ==> b.frameLen > 0)
  }

  lemma IngestKeepsValid(cfg: Config, b: Block, flags: DataFlags, p: seq<Byte>, now: nat)
    requires BlockValid(b)
    ensures BlockValid(Ingest(cfg, b, flags, p, now).block)
  {
  }

  // ---- completing a block ---------------------------------------------------------------------

  /** The chunks named by ids in a row. */
  function Concatenated(sources: map<nat, seq<Byte>>, ids: seq<nat>): seq<Byte> {
    if ids == [] then []
    else
      var i := ids[|ids| - 1];
      Concatenated(sources, ids[..|ids| - 1]) + if i in sources then sources[i] else []
  }

  /** Cut or zero-fill to s bytes. */
  function Fitted(c: seq<Byte>, s: nat): (r: seq<Byte>)
    ensures |r| == s
  {
    if |c| <= s then Pad(c, s) else c[..s]
  }

  /** The symbols the decoder is fed: sources in order, then repairs. */
  function Fed(b: Block): seq<Symbol> {
    var si, rj := Ascending(b.sources.Keys), Ascending(b.repairs.Keys);
    seq(|si|, n requires 0 <= n < |si| => Source(si[n])) + seq(|rj|, n requires 0 <= n < |rj| => Repair(rj[n]))
  }

  predicate Has(b: Block, y: Symbol) {
    match y
    case Source(i) => i in b.sources
    case Repair(j) => j in b.repairs
  }

  function FedData(b: Block, y: Symbol): seq<Byte>
    requires Has(b, y)
  {
    match y
    case Source(i) => Fitted(b.sources[i], b.s)
    case Repair(j) => b.repairs[j]
  }

  lemma FedKnown(b: Block, r: nat)
    requires BlockValid(b) && r < |Fed(b)|
    ensures Has(b, Fed(b)[r]) && InBlock(b.k, Fed(b)[r])
  {
    AscendingProperties(b.sources.Keys);
    AscendingProperties(b.repairs.Keys);
    var si, rj := Ascending(b.sources.Keys), Ascending(b.repairs.Keys);
    if r < |si| { assert si[r] in si; } else { assert rj[r - |si|] in rj; }
  }

  lemma FedDistinct(b: Block, q: nat, r: nat)
    requires q < r < |Fed(b)|
    ensures Fed(b)[q] != Fed(b)[r]
  {
    AscendingProperties(b.sources.Keys);
    AscendingProperties(b.repairs.Keys);
  }

  lemma FedProperties(b: Block)
    requires BlockValid(b)
    ensures |Fed(b)| == |b.sources| + |b.repairs|
    ensures DistinctSymbols(b.k, Fed(b))
    ensures forall r :: 0 <= r < |Fed(b)| ==> Has(b, Fed(b)[r])
  {
    AscendingProperties(b.sources.Keys);
    AscendingProperties(b.repairs.Keys);
    assert |Fed(b)| == |b.sources.Keys| + |b.repairs.Keys|;
    forall r | 0 <= r < |Fed(b)| ensures InBlock(b.k, Fed(b)[r]) && Has(b, Fed(b)[r]) { FedKnown(b, r); }
    forall q, r | 0 <= q < r < |Fed(b)| ensures Fed(b)[q] != Fed(b)[r] { FedDistinct(b, q, r); }
  }

  /** The block x carries the first k symbols fed. */
  ghost predicate Explains(b: Block, x: Matrix) {
    && |Fed(b)| >= b.k && Shape(x, b.k, b.s)
    && forall r :: 0 <= r < b.k ==>
         var y := Fed(b)[r];
         InBlock(b.k, y) && Has(b, y) && FedData(b, y) == SymbolData(b.k, b.s, x, y)
  }

  /** scratch.resize(n). */
  function Resized(f: seq<Byte>, n: nat): seq<Byte> {
    if n <= |f| then f[..n] else f + ZeroBytes(n - |f|)
  }

  /** What try_complete makes of a block. */
  datatype Completion = Pending | Broken | Whole(frame: seq<Byte>, path: Path)

  predicate AllSources(b: Block) {
    b.k > 0 && |b.sources| == b.k
  }

  predicate Decodable(cfg: Config, b: Block) {
    b.k > 0 && |b.sources| + |b.repairs| >= b.k && b.s > 0 && 0 < b.frameLen <= cfg.maxFrameBytes
  }

  /** The concatenation when every source is there, else the decoded block once k symbols are. */
  ghost function Complete(cfg: Config, b: Block): Completion {
    if AllSources(b) then
      var frame := Concatenated(b.sources, Ascending(b.sources.Keys));
      if |frame| > cfg.maxFrameBytes || |frame| < FRAME_META then Broken else Whole(frame, Fast)
    else if Decodable(cfg, b) && exists x :: Explains(b, x) then
      var x :| Explains(b, x);
      Whole(Resized(Flatten(x), b.frameLen), Fec)
    else Pending
  }

  // ---- retiring blocks ----------------------------------------------------------------------------

  function Later(mark: Option<U32>, id: U32): Option<U32> {
    if mark.None? || SerialDiff(id, mark.value) > 0 then Some(id) else mark
  }

  /** Forget a block and move the watermark. */
  function Finalized(st: State, id: U32): State {
    st.(blocks := st.blocks - {id}, finalizedUpto := Later(st.finalizedUpto, id))
  }

  /** An attempt to emit, with its effect on the counters when it is not a salvage. */
  function Emitted(env: Environment, st: State, id: U32, frame: seq<Byte>, path: Path): State {
    var accepted := env.egress(|st.log|, frame);
    var st' := st.(log := st.log + [Emission(id, frame, accepted, accepted, path)]);
    if !accepted then st'.(stats := st.stats.(rejected := st.stats.rejected + 1))
    else
      var counted := st.stats.(delivered := st.stats.delivered + 1);
      st'.(lastEmitted := Later(st.lastEmitted, id),
           stats := match path
                    case Fast => counted.(fast := st.stats.fast + 1)
                    case Fec => counted.(fec := st.stats.fec + 1)
                    case Salvage => counted.(salvaged := st.stats.salvaged + 1))
  }

  datatype Cause = Superseded | Deadline

  function Lost(stats: Stats, cause: Cause, unrecoverable: bool): Stats {
    var u := if unrecoverable then stats.(unrecoverable := stats.unrecoverable + 1) else stats;
    match cause
    case Superseded => u.(superseded := stats.superseded + 1)
    case Deadline => u.(deadline := stats.deadline + 1)
  }

  /** The hook may rebuild a block below k, never behind a frame already accepted. */
  predicate SalvageAllowed(env: Environment, st: State, id: U32, b: Block) {
    && env.hook.Some? && b.k != 0 && b.sources != map[]
    && (st.lastEmitted.Some? ==> SerialDiff(id, st.lastEmitted.value) > 0)
  }

  /** Frames the hook hands to the egress one after the other; none of them counts as delivered yet. */
  function Offered(env: Environment, log: seq<Emission>, id: U32, frames: seq<seq<Byte>>): (r: seq<Emission>)
    ensures |r| == |log| + |frames| && r[..|log|] == log
    ensures forall i :: |log| <= i < |r| ==> r[i].id == id && r[i].path == Salvage && !r[i].credited
  {
    if frames == [] then log
    else
      var n := |frames| - 1;
      var before := Offered(env, log, id, frames[..n]);
      before + [Emission(id, frames[n], env.egress(|before|, frames[n]), false, Salvage)]
  }

  function ViewOf(id: U32, b: Block): SalvageView {
    SalvageView(id, b.k, b.s, b.frameLen, b.sources)
  }

  datatype Outcome = Unavailable | Rejected | Taken

  datatype Salvaging = Salvaging(st: State, outcome: Outcome)

  /** Only the answer to the last frame is looked at: it is rejected, credited, or taken and disowned. */
  function Salvaged(env: Environment, st: State, id: U32, r: SalvageResult): Salvaging
    requires r.frames != []
  {
    var n := |r.frames| - 1;
    var last := Emitted(env, st.(log := Offered(env, st.log, id, r.frames[..n])), id, r.frames[n], Salvage);
    if !env.egress(|st.log| + n, r.frames[n]) then Salvaging(last, Rejected)
    else if r.repaired then Salvaging(last, Taken)
    else Salvaging(st.(log := Offered(env, st.log, id, r.frames)), Unavailable)
  }

  /** The last chance of a block below k. */
  function TriedSalvage(env: Environment, st: State, id: U32, b: Block): Salvaging {
    if !SalvageAllowed(env, st, id, b) then Salvaging(st, Unavailable)
    else
      var r := env.hook.value(|st.log|, ViewOf(id, b));
      if r.frames == [] then Salvaging(st, Unavailable) else Salvaged(env, st, id, r)
  }

  function Retired(env: Environment, st: State, id: U32, cause: Cause): State
    requires id in st.blocks
  {
    var b := st.blocks[id];
    var retired :=
      if b.k != 0 && |b.sources| + |b.repairs| >= b.k then st.(stats := Lost(st.stats, cause, false))
      else
        var t := TriedSalvage(env, st, id, b);
        if t.outcome == Unavailable then t.st.(stats := Lost(t.st.stats, cause, true)) else t.st;
    Finalized(retired, id)
  }

  /** Blocks more than maxBlocksAhead older than the newest are given up, in map order. */
  function SupersededBy(cfg: Config, env: Environment, st: State, ids: seq<nat>, newest: U32): State
    decreases |ids|
  {
    if ids == [] then st
    else
      var id := ids[0];
      var st' := if id in st.blocks && SerialDiff(newest, id) > cfg.maxBlocksAhead then Retired(env, st, id, Superseded) else st;
      SupersededBy(cfg, env, st', ids[1..], newest)
  }

  function Ticked(cfg: Config, env: Environment, st: State, ids: seq<nat>, now: nat): State
    decreases |ids|
  {
    if ids == [] then st
    else
      var id := ids[0];
      var st' := if id in st.blocks && now >= st.blocks[id].firstMs + cfg.deadlineMs then Retired(env, st, id, Deadline) else st;
      Ticked(cfg, env, st', ids[1..], now)
  }

  /** try_complete and the erasure that follows. */
  ghost function Completed(cfg: Config, env: Environment, st: State, id: U32): State
    requires id in st.blocks
  {
    match Complete(cfg, st.blocks[id])
    case Pending => st
    case Broken => Finalized(st.(stats := st.stats.(malformed := st.stats.malformed + 1)), id)
    case Whole(frame, path) => Finalized(Emitted(env, st, id, frame, path), id)
  }

  /** A block newer than any before pushes old ones out of the window. */
  function AfterSupersession(cfg: Config, env: Environment, st: State, id: U32): State {
    if st.highest.None? || SerialDiff(id, st.highest.value) > 0
    then SupersededBy(cfg, env, st.(highest := Some(id)), Ascending(st.blocks.Keys), id)
    else st
  }

  /** A symbol filed under its block, which may now be complete. */
  ghost function TakenIn(cfg: Config, env: Environment, st: State, id: U32, taken: Ingested): State {
    var st1 := st.(blocks := st.blocks[id := taken.block]);
    if !taken.ok then st1.(stats := st.stats.(malformed := st.stats.malformed + 1))
    else
      var st2 := AfterSupersession(cfg, env, st1, id);
      if id in st2.blocks then Completed(cfg, env, st2, id) else st2
  }

  /** One symbol of a block. */
  ghost function Pushed(cfg: Config, env: Environment, st: State, id: U32, flags: DataFlags, p: seq<Byte>,
                        now: nat): State {
    if st.finalizedUpto.Some? && SerialDiff(id, st.finalizedUpto.value) <= 0 then st
    else
      var b := if id in st.blocks then st.blocks[id] else NewBlock(now);
      TakenIn(cfg, env, st, id, Ingest(cfg, b, flags, p, now))
  }

  function Tick(cfg: Config, env: Environment, st: State, now: nat): State {
    Ticked(cfg, env, st, Ascending(st.blocks.Keys), now)
  }
}
