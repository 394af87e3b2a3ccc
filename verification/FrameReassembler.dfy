/** The frame reassembler as the object the receive path drives. */
module FrameReassembler {
  import opened Bytes
  import opened Keys
  import opened GfTables
  import opened GaussJordan
  import opened Rlc
  import opened FrameBlock
  import opened ReassemblerSpec

  /** At most k sources are ever held. */
  lemma SourcesFit(b: Block)
    requires BlockValid(b)
    ensures |b.sources| <= b.k
    ensures b.k > 0 && |b.sources| != b.k && |b.sources| + |b.repairs| >= b.k ==> b.k < MAX_SYMBOLS && b.s > 0
  {
    var have := set i | i in b.sources.Keys :: i as int;
    assert forall i :: i in b.sources.Keys ==> i < b.k;
    assert |have| == |b.sources.Keys| by { SameSize(b.sources.Keys, have); }
    CountMissing(b.k, have, Below(b.k) - have);
    assert |b.sources.Keys| == |b.sources|;
    if b.k > 0 && |b.sources| != b.k && |b.sources| + |b.repairs| >= b.k {
      assert |b.repairs.Keys| == |b.repairs|;
      var j := Pick(b.repairs.Keys);
    }
  }

  lemma {:induction false} SameSize(s: set<nat>, r: set<int>)
    requires forall i :: i in s ==> i in r
    requires forall i :: i in r ==> 0 <= i && i in s
    ensures |s| == |r|
    decreases |s|
  {
    if s == {} {
      if r != {} { var x := Pick(r); }
    } else {
      var x := Pick(s);
      Smaller(s, x);
      Smaller(r, x);
      SameSize(s - {x}, r - {x});
    }
  }

  lemma ConcatenatedStep(sources: map<nat, seq<Byte>>, ids: seq<nat>, n: nat)
    requires n < |ids|
    ensures Concatenated(sources, ids[..n + 1])
      == Concatenated(sources, ids[..n]) + if ids[n] in sources then sources[ids[n]] else []
  {
    assert ids[..n + 1][..n] == ids[..n];
  }

  lemma {:induction false} ConcatenatedGrows(sources: map<nat, seq<Byte>>, ids: seq<nat>, n: nat)
    requires n <= |ids|
    ensures |Concatenated(sources, ids[..n])| <= |Concatenated(sources, ids)|
    decreases |ids| - n
  {
    if n == |ids| {
      assert ids[..n] == ids;
    } else {
      ConcatenatedStep(sources, ids, n);
      ConcatenatedGrows(sources, ids, n + 1);
    }
  }

  /** The chunks in order, unless they outgrow the frame cap. */
  method Concatenate(sources: map<nat, seq<Byte>>, cap: nat) returns (r: Option<seq<Byte>>)
    ensures var frame := Concatenated(sources, Ascending(sources.Keys));
            r == if |frame| > cap then None else Some(frame)
  {
    var ids := Ascending(sources.Keys);
    var frame: seq<Byte> := [];
    var i := 0;
    while i < |ids|
      invariant 0 <= i <= |ids|
      invariant frame == Concatenated(sources, ids[..i]) && |frame| <= cap
    {
      ConcatenatedStep(sources, ids, i);
      ConcatenatedGrows(sources, ids, i + 1);
      AscendingProperties(sources.Keys);
      assert ids[i] in ids;
      var c := sources[ids[i]];
      if |c| > cap - |frame| {
        return None;
      }
      frame := frame + c;
      i := i + 1;
    }
    assert ids[..i] == ids;
    return Some(frame);
  }

  /** The first n symbols of the block, or k of them, with their payloads. */
  ghost predicate Collected(symbols: seq<Symbol>, data: seq<seq<Byte>>, b: Block, n: nat) {
    && n <= |Fed(b)| && symbols == Fed(b)[..if n < b.k then n else b.k] && |data| == |symbols|
    && forall r :: 0 <= r < |symbols| ==> Has(b, symbols[r]) && data[r] == FedData(b, symbols[r])
  }

  ghost predicate Feeding(dec: RlcDecoder, b: Block, n: nat)
    reads dec
  {
    dec.Valid() && dec.k == b.k && dec.s == b.s && Collected(dec.symbols, dec.data, b, n)
  }

  /** One symbol more, unless k are held. */
  lemma FeedStep(symbols: seq<Symbol>, data: seq<seq<Byte>>, b: Block, n: nat, y: Symbol)
    requires Collected(symbols, data, b, n) && n < |Fed(b)| && y == Fed(b)[n] && Has(b, y)
    ensures |symbols| >= b.k ==> Collected(symbols, data, b, n + 1)
    ensures |symbols| < b.k ==> Collected(symbols + [y], data + [FedData(b, y)], b, n + 1)
  {
    hide Fed, FedData, Has;
    var f := Fed(b);
    if n < b.k {
      assert f[..n] + [f[n]] == f[..n + 1];
    }
  }

  lemma NotYet(b: Block, n: nat)
    requires BlockValid(b) && n < |Fed(b)|
    ensures forall m: nat :: m <= n ==> Fed(b)[n] !in Fed(b)[..m]
  {
    FedProperties(b);
    hide Fed;
    forall m: nat | m <= n ensures Fed(b)[n] !in Fed(b)[..m] {
      assert forall q :: 0 <= q < m ==> Fed(b)[..m][q] == Fed(b)[q];
    }
  }

  lemma FedSources(b: Block, n: nat)
    requires n < |Ascending(b.sources.Keys)|
    ensures n < |Fed(b)| && Fed(b)[n] == Source(Ascending(b.sources.Keys)[n])
    ensures Ascending(b.sources.Keys)[n] in b.sources
  {
    AscendingProperties(b.sources.Keys);
    assert Ascending(b.sources.Keys)[n] in Ascending(b.sources.Keys);
  }

  lemma FedRepairs(b: Block, n: nat)
    requires n < |Ascending(b.repairs.Keys)|
    ensures var m := |Ascending(b.sources.Keys)| + n; m < |Fed(b)| && Fed(b)[m] == Repair(Ascending(b.repairs.Keys)[n])
    ensures Ascending(b.repairs.Keys)[n] in b.repairs
  {
    AscendingProperties(b.repairs.Keys);
    assert Ascending(b.repairs.Keys)[n] in Ascending(b.repairs.Keys);
  }

  /** Sources first, zero-padded or cut to the symbol size. */
  method FeedSources(dec: RlcDecoder, b: Block)
    requires BlockValid(b) && Feeding(dec, b, 0)
    modifies dec
    ensures Feeding(dec, b, |Ascending(b.sources.Keys)|)
  {
    hide Fed, Fitted, Ascending, BlockValid, Collected;
    var ids := Ascending(b.sources.Keys);
    var n := 0;
    while n < |ids|
      invariant 0 <= n <= |ids|
      invariant Feeding(dec, b, n)
    {
      FedSources(b, n);
      NotYet(b, n);
      FedKnown(b, n);
      Unfold(dec.symbols, dec.data, b, n);
      FeedStep(dec.symbols, dec.data, b, n, Source(ids[n]));
      dec.AddSource(ids[n], Fitted(b.sources[ids[n]], b.s));
      n := n + 1;
    }
  }

  lemma Unfold(symbols: seq<Symbol>, data: seq<seq<Byte>>, b: Block, n: nat)
    requires Collected(symbols, data, b, n)
    ensures n <= |Fed(b)| && symbols == Fed(b)[..if n < b.k then n else b.k]
  {
  }

  method FeedRepairs(dec: RlcDecoder, b: Block)
    requires BlockValid(b) && Feeding(dec, b, |Ascending(b.sources.Keys)|) && dec.t.Valid()
    modifies dec
    ensures Feeding(dec, b, |Fed(b)|)
  {
    hide Fitted, Ascending, Collected, TablesCorrect;
    assert |Fed(b)| == |Ascending(b.sources.Keys)| + |Ascending(b.repairs.Keys)|;
    hide Fed;
    ghost var m := |Ascending(b.sources.Keys)|;
    var ids := Ascending(b.repairs.Keys);
    var n := 0;
    while n < |ids|
      invariant 0 <= n <= |ids|
      invariant Feeding(dec, b, m + n)
    {
      FedRepairs(b, n);
      NotYet(b, m + n);
      FedKnown(b, m + n);
      Unfold(dec.symbols, dec.data, b, m + n);
      FeedStep(dec.symbols, dec.data, b, m + n, Repair(ids[n]));
      dec.AddRepair(ids[n], b.repairs[ids[n]]);
      n := n + 1;
    }
  }

  /** With every symbol fed, what the decoder carries is what the block explains. */
  lemma FedCarries(dec: RlcDecoder, b: Block)
    requires BlockValid(b) && Feeding(dec, b, |Fed(b)|) && |Fed(b)| >= b.k
    ensures |dec.symbols| == b.k
    ensures forall x :: dec.Carries(x) <==> Explains(b, x)
  {
    hide Fed, BlockValid, FedData, SymbolData, InBlock, Shape;
    FedProperties(b);
  }

  /** The decode path: on k or more symbols it never fails, and its output is the only block they explain. */
  method DecodeBlock(t: Tables, cfg: Config, b: Block) returns (frame: seq<Byte>)
    requires t.Valid() && BlockValid(b) && Decodable(cfg, b) && !AllSources(b)
    ensures Complete(cfg, b) == Whole(frame, Fec)
  {
    SourcesFit(b);
    FedProperties(b);
    var out := new Byte[b.k * b.s];
    var dec := new RlcDecoder(t, b.k, b.s);
    assert Feeding(dec, b, 0);
    hide Fed, Fitted, Collected, TablesCorrect, BlockValid;
    FeedSources(dec, b);
    FeedRepairs(dec, b);
    FedCarries(dec, b);
    var ok := dec.Decode(out);
    frame := Resized(out[..], b.frameLen);
  }

  class FrameReassembler {
    const t: Tables
    const cfg: Config
    const env: Environment
    var blocks: map<U32, Block>
    var highest: Option<U32>
    var lastEmitted: Option<U32>
    var finalizedUpto: Option<U32>
    var log: seq<Emission>          // every attempt handed to the egress
    var stats: Stats

    ghost predicate Valid()
      reads this
    {
      forall id :: id in blocks ==> BlockValid(blocks[id])
    }

    ghost function View(): State
      reads this
    {
      State(blocks, highest, lastEmitted, finalizedUpto, log, stats)
    }

    constructor (tables: Tables, config: Config, environment: Environment)
      ensures Valid() && View() == START && t == tables && cfg == config && env == environment
    {
      t, cfg, env := tables, config, environment;
      blocks, highest, lastEmitted, finalizedUpto, log := map[], None, None, None, [];
      stats := Stats(0, 0, 0, 0, 0, 0, 0, 0, 0);
    }

    method Finalize(id: U32)
      requires Valid()
      modifies this`blocks, this`finalizedUpto
      ensures Valid() && View() == Finalized(old(View()), id)
    {
      blocks := blocks - {id};
      if finalizedUpto.None? || SerialDiff(id, finalizedUpto.value) > 0 {
        finalizedUpto := Some(id);
      }
    }

    /** Hand a frame to the egress and account for its answer. */
    method Emit(id: U32, frame: seq<Byte>, path: Path) returns (accepted: bool)
      modifies this`log, this`stats, this`lastEmitted
      ensures View() == Emitted(env, old(View()), id, frame, path)
      ensures accepted == log[|log| - 1].accepted && log == old(log) + [Emission(id, frame, accepted, accepted, path)]
    {
      accepted := env.egress(|log|, frame);
      log := log + [Emission(id, frame, accepted, accepted, path)];
      if !accepted {
        stats := stats.(rejected := stats.rejected + 1);
        return;
      }
      if lastEmitted.None? || SerialDiff(id, lastEmitted.value) > 0 {
        lastEmitted := Some(id);
      }
      stats := stats.(delivered := stats.delivered + 1);
      match path {
        case Fast => stats := stats.(fast := stats.fast + 1);
        case Fec => stats := stats.(fec := stats.fec + 1);
        case Salvage => stats := stats.(salvaged := stats.salvaged + 1);
      }
    }

    /** The last chance of a block below k: the hook's last frame counts as salvaged if it was taken and the hook says so. */
    method TrySalvage(id: U32, b: Block) returns (outcome: Outcome)
      modifies this`log, this`stats, this`lastEmitted
      ensures Salvaging(View(), outcome) == TriedSalvage(env, old(View()), id, b)
      ensures |log| >= |old(log)|
    {
      if env.hook.None? || b.k == 0 || b.sources == map[] {
        return Unavailable;
      }
      if lastEmitted.Some? && SerialDiff(id, lastEmitted.value) <= 0 {
        return Unavailable;
      }
      hide SerialDiff;
      var r := env.hook.value(|log|, ViewOf(id, b));
      var attempted, accepted := Offer(id, r.frames);
      assert attempted ==> r.frames[..|r.frames| - 1] + [r.frames[|r.frames| - 1]] == r.frames;
      if attempted && !accepted {
        stats := stats.(rejected := stats.rejected + 1);
        return Rejected;
      }
      if !r.repaired || !attempted {
        return Unavailable;
      }
      log := log[..|log| - 1] + [log[|log| - 1].(credited := true)];
      if lastEmitted.None? || SerialDiff(id, lastEmitted.value) > 0 {
        lastEmitted := Some(id);
      }
      stats := stats.(delivered := stats.delivered + 1, salvaged := stats.salvaged + 1);
      return Taken;
    }

    /** What the hook emits, with whether it emitted anything and the answer it got last. */
    method Offer(id: U32, frames: seq<seq<Byte>>) returns (attempted: bool, accepted: bool)
      modifies this`log
      ensures log == Offered(env, old(log), id, frames) && attempted == (frames != [])
      ensures attempted ==> accepted == env.egress(|old(log)| + |frames| - 1, frames[|frames| - 1])
    {
      attempted, accepted := false, false;
      var i := 0;
      while i < |frames|
        invariant 0 <= i <= |frames| && attempted == (i > 0)
        invariant log == Offered(env, old(log), id, frames[..i])
        invariant attempted ==> accepted == env.egress(|old(log)| + i - 1, frames[i - 1])
      {
        assert frames[..i + 1][..i] == frames[..i];
        attempted, accepted := true, env.egress(|log|, frames[i]);
        log := log + [Emission(id, frames[i], accepted, false, Salvage)];
        i := i + 1;
      }
      assert frames[..i] == frames;
    }

    method Retire(id: U32, cause: Cause)
      requires Valid() && id in blocks
      modifies this
      ensures Valid() && View() == Retired(env, old(View()), id, cause)
      ensures |log| >= |old(log)|
    {
      hide Emitted, Finalized, SerialDiff, BlockValid;
      var b := blocks[id];
      if b.k == 0 || |b.sources| + |b.repairs| < b.k {
        var outcome := TrySalvage(id, b);
        if outcome == Unavailable {
          stats := Lost(stats, cause, true);
        }
      } else {
        stats := Lost(stats, cause, false);
      }
      Finalize(id);
    }

    /** Deliver the block if its sources are all there, or decode it if k symbols are. */
    method TryComplete(id: U32)
      requires Valid() && t.Valid() && id in blocks
      modifies this
      ensures Valid() && View() == Completed(cfg, env, old(View()), id)
      ensures |log| >= |old(log)|
    {
      hide TablesCorrect, Emitted, Finalized, BlockValid, Concatenated;
      var b := blocks[id];
      if b.k == 0 {
        return;
      }
      if |b.sources| == b.k {
        var frame := Concatenate(b.sources, cfg.maxFrameBytes);
        if frame.None? || |frame.value| < FRAME_META {
          stats := stats.(malformed := stats.malformed + 1);
        } else {
          var _ := Emit(id, frame.value, Fast);
        }
        Finalize(id);
        return;
      }
      if |b.sources| + |b.repairs| >= b.k && b.s > 0 && 0 < b.frameLen <= cfg.maxFrameBytes {
        var frame := DecodeBlock(t, cfg, b);
        var _ := Emit(id, frame, Fec);
        Finalize(id);
      }
    }

    method Supersede(newest: U32)
      requires Valid()
      modifies this
      ensures Valid() && View() == SupersededBy(cfg, env, old(View()), Ascending(old(blocks).Keys), newest)
      ensures |log| >= |old(log)|
    {
      hide Retired, SerialDiff, Ascending;
      var ids := Ascending(blocks.Keys);
      var i := 0;
      while i < |ids|
        invariant 0 <= i <= |ids| && Valid() && |log| >= |old(log)|
        invariant SupersededBy(cfg, env, View(), ids[i..], newest) == SupersededBy(cfg, env, old(View()), ids, newest)
      {
        assert ids[i..][1..] == ids[i + 1..];
        var id := ids[i];
        if id in blocks && SerialDiff(newest, id) > cfg.maxBlocksAhead {
          Retire(id, Superseded);
        }
        i := i + 1;
      }
    }

    method Tick(now: nat)
      requires Valid()
      modifies this
      ensures Valid() && View() == ReassemblerSpec.Tick(cfg, env, old(View()), now)
    {
      hide Retired, Ascending;
      var ids := Ascending(blocks.Keys);
      var i := 0;
      while i < |ids|
        invariant 0 <= i <= |ids| && Valid()
        invariant Ticked(cfg, env, View(), ids[i..], now) == Ticked(cfg, env, old(View()), ids, now)
      {
        assert ids[i..][1..] == ids[i + 1..];
        var id := ids[i];
        if id in blocks && now >= blocks[id].firstMs + cfg.deadlineMs {
          Retire(id, Deadline);
        }
        i := i + 1;
      }
    }

    /** A repair symbol: its geometry must agree with what the block knows. */
    method TakeRepair(held: Block, eob: bool, p: seq<Byte>, now: nat) returns (r: Ingested)
      ensures r == IngestRepair(cfg, held, eob, p, now)
    {
      var b := held;
      if |p| <= REPAIR_SUBHEADER {
        return Ingested(b, false);
      }
      var k, frameLen, j, coded := ReadBe16(p, 1), ReadBe32(p, 7), p[0], |p| - REPAIR_SUBHEADER;
      if k == 0 || k > MAX_SYMBOLS || frameLen < FRAME_META || frameLen > cfg.maxFrameBytes || coded == 0
         || coded > MAX_DATA_PAYLOAD || k + j >= MAX_SYMBOLS {
        return Ingested(b, false);
      }
      if (b.k != 0 && b.k != k) || (b.frameLen != 0 && b.frameLen != frameLen) || (b.s != 0 && b.s != coded) {
        return Ingested(b, false);
      }
      b := b.(k := k, frameLen := frameLen, s := coded);
      if eob && b.eobMs.None? {
        b := b.(eobMs := Some(now));
      }
      if j !in b.repairs {
        b := b.(repairs := b.repairs[j := p[REPAIR_SUBHEADER..]], lastNewMs := now);
      }
      return Ingested(b, true);
    }

    /** A source symbol: every one but the last has the full symbol size. */
    method TakeSource(held: Block, eob: bool, p: seq<Byte>, now: nat) returns (r: Ingested)
      ensures r == IngestSource(cfg, held, eob, p, now)
    {
      var b := held;
      if |p| < SOURCE_SUBHEADER {
        return Ingested(b, false);
      }
      var k, i, n := ReadBe16(p, 0), ReadBe16(p, 2), |p| - SOURCE_SUBHEADER;
      var least := if k > 1 then (k - 1) * MIN_SYMBOL + 1 else 1;
      if k == 0 || i >= k || least > cfg.maxFrameBytes || (b.k != 0 && b.k != k) {
        return Ingested(b, false);
      }
      b := b.(k := k);
      if n == 0 || n > MAX_DATA_PAYLOAD || (b.s != 0 && ((i != k - 1 && n != b.s) || (i == k - 1 && n > b.s))) {
        return Ingested(b, false);
      }
      if i != k - 1 && b.s == 0 {
        b := b.(s := n);
      }
      if k > 1 && b.s > 0 && (k - 1) * b.s + 1 > cfg.maxFrameBytes {
        return Ingested(b, false);
      }
      if eob && b.eobMs.None? {
        b := b.(eobMs := Some(now));
      }
      if i !in b.sources {
        b := b.(sources := b.sources[i := p[SOURCE_SUBHEADER..]], lastNewMs := now);
      }
      return Ingested(b, true);
    }

    /** File the symbol's block, retire what it supersedes and complete it if it can be. */
    method File(id: U32, taken: Ingested)
      requires Valid() && t.Valid() && BlockValid(taken.block)
      modifies this
      ensures Valid() && View() == TakenIn(cfg, env, old(View()), id, taken)
      ensures |log| >= |old(log)|
    {
      hide TablesCorrect, SupersededBy, Completed, SerialDiff, BlockValid, Ascending;
      blocks := blocks[id := taken.block];
      if !taken.ok {
        stats := stats.(malformed := stats.malformed + 1);
        return;
      }
      if highest.None? || SerialDiff(id, highest.value) > 0 {
        highest := Some(id);
        Supersede(id);
      }
      if id in blocks {
        TryComplete(id);
      }
    }

    /** Feed one symbol; attempted tells whether any frame was handed to the egress meanwhile. */
    method Push(id: U32, flags: DataFlags, p: seq<Byte>, now: nat) returns (attempted: bool)
      requires Valid() && t.Valid()
      modifies this
      ensures Valid() && View() == Pushed(cfg, env, old(View()), id, flags, p, now)
      ensures attempted <==> |log| > |old(log)|
    {
      hide TablesCorrect, TakenIn, SerialDiff, IngestRepair, IngestSource;
      var before := |log|;
      if finalizedUpto.Some? && SerialDiff(id, finalizedUpto.value) <= 0 {
        return false;
      }
      NewBlockValid(now);
      var b := if id in blocks then blocks[id] else NewBlock(now);
      assert BlockValid(b);
      hide BlockValid;
      IngestKeepsValid(cfg, b, flags, p, now);
      var taken;
      if flags.fecRepair {
        taken := TakeRepair(b, flags.endOfBlock, p, now);
      } else {
        taken := TakeSource(b, flags.endOfBlock, p, now);
      }
      File(id, taken);
      attempted := |log| != before;
    }
  }

  lemma NewBlockValid(now: nat)
    ensures BlockValid(NewBlock(now))
  {
  }
}
