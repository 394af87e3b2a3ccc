/** The frame framer: one frame becomes k source packets and r repair packets. */
module FrameFramer {
  import opened Bytes
  import opened GfTables
  import opened GaussJordan
  import opened Rlc
  import opened FrameBlock

  datatype FecScheme = NoFec | Rlc256 | Rlc256Iframe | TetrysReactive

  datatype FecConfig = FecConfig(scheme: FecScheme, iRate: U16, pRate: U16, eRate: Option<U16>, minR: U16)

  datatype FecClass = P | Enhance | Idr

  const DEFAULT_MAX_PAYLOAD: U16 := 1424
  const FEC_PROTECTION_K := 16

  /** The class the metadata flags ask for; IDR wins over the droppable layer. */
  function ClassOf(frame: seq<Byte>): FecClass
    requires |frame| >= FRAME_META
  {
    if frame[5] % 2 == 1 then Idr else if (frame[5] / 4) % 2 == 1 then Enhance else P
  }

  function ClassRate(fec: FecConfig, cls: FecClass): U16 {
    match cls
    case Idr => fec.iRate
    case Enhance => if fec.eRate.Some? then fec.eRate.value else fec.pRate
    case P => fec.pRate
  }

  /** k symbols at the given permille, rounded up. */
  function RateRepairs(k: nat, rate: nat): nat {
    (k * rate + 999) / 1000
  }

  /** It is the least count that makes the rate. */
  lemma LeastRepairs(k: nat, rate: nat)
    ensures 1000 * RateRepairs(k, rate) >= k * rate
    ensures forall r: nat :: 1000 * r >= k * rate ==> r >= RateRepairs(k, rate)
  {
  }

  /** The adaptive policy: the rate or the floor, and nothing at all past the field's capacity. */
  function RepairCount(fec: FecConfig, k: U16, cls: FecClass): nat {
    var rate := ClassRate(fec, cls);
    var r := RateRepairs(k, rate);
    var floored := if r < fec.minR then fec.minR else r;
    if fec.scheme != Rlc256 || rate == 0 || k + floored > MAX_SYMBOLS then 0 else floored
  }

  /** The rate a frame's flags ask for: IDR first, then the droppable layer if it has a rate of its own. */
  function FlaggedRate(fec: FecConfig, flags: Byte): U16 {
    if flags % 2 == 1 then fec.iRate else if flags / 4 % 2 == 1 && fec.eRate.Some? then fec.eRate.value else fec.pRate
  }

  /** Without override and guard a frame gets the least count that makes its rate and the floor, or none where that does not fit. */
  lemma RepairsFor(fec: FecConfig, frame: seq<Byte>, k: U16)
    requires |frame| >= FRAME_META
    ensures var rate, r := FlaggedRate(fec, frame[5]), PlannedRepairs(fec, None, ClassOf(frame), k, false);
            if fec.scheme != Rlc256 || rate == 0 then r == 0
            else if r == 0 then k == 0 || fec.minR + k > MAX_SYMBOLS || k * rate + 1000 * k > 1000 * MAX_SYMBOLS
            else 1000 * r >= k * rate && r >= fec.minR && k + r <= MAX_SYMBOLS && (r == fec.minR || 1000 * (r - 1) < k * rate)
  {
    LeastRepairs(k, FlaggedRate(fec, frame[5]));
    if k > 0 && FlaggedRate(fec, frame[5]) > 0 { assert k * FlaggedRate(fec, frame[5]) > 0; }
  }

  /** Jumbo symbols that cut a frame too thin to protect at its configured depth. */
  predicate JumboGuard(fec: FecConfig, len: nat, s: nat, k: nat)
    requires len > 0 && s > 0
  {
    var standard := DEFAULT_MAX_PAYLOAD - DATA_HEADER - REPAIR_SUBHEADER;
    var d := if s < standard then s else standard;
    fec.scheme == Rlc256 && s > d && k < FEC_PROTECTION_K && SourceCount(len, d) >= FEC_PROTECTION_K
  }

  /** The repair count of a frame: the policy, the one-shot override, then the jumbo guard. */
  function PlannedRepairs(fec: FecConfig, parity: Option<U16>, cls: FecClass, k: U16, guarded: bool): (r: nat)
    requires guarded ==> k < FEC_PROTECTION_K
  {
    var policy := RepairCount(fec, k, cls);
    var cap := if k < MAX_SYMBOLS then MAX_SYMBOLS - k else 0;
    var enforced :=
      if parity.Some? && cls != Enhance && fec.scheme == Rlc256
      then if parity.value < cap then parity.value else cap
      else policy;
    if !guarded then enforced
    else
      var rate := ClassRate(fec, cls);
      var depth := RateRepairs(FEC_PROTECTION_K, rate);
      var guard := (if fec.minR > depth then fec.minR else depth) % 0x1_0000;
      if rate != 0 && guard <= cap && enforced < guard then guard else enforced
  }

  /** Whatever rate, override or guard asks for, a protected block fits the field, and without the code there is none. */
  lemma PlannedFits(fec: FecConfig, parity: Option<U16>, cls: FecClass, k: U16, guarded: bool)
    requires guarded ==> k < FEC_PROTECTION_K && fec.scheme == Rlc256
    ensures var r := PlannedRepairs(fec, parity, cls, k, guarded); r == 0 || k + r <= MAX_SYMBOLS
    ensures fec.scheme != Rlc256 ==> PlannedRepairs(fec, parity, cls, k, guarded) == 0
    ensures guarded ==> PlannedRepairs(fec, parity, cls, k, true) >= PlannedRepairs(fec, parity, cls, k, false)
  {
  }

  function SourcePacket(frame: seq<Byte>, k: U16, s: nat, r: nat, i: nat, block: U32, base: U32, armed: bool): Packet
    requires Geometry(frame, k, s) && i < k
  {
    ChunkLength(frame, k, s, i);
    Packet(Wrapped(base + i), block, DataFlags(r == 0 && i == k - 1, false, armed), SourcePayload(k, i, Chunk(frame, s, i)))
  }

  ghost function RepairPacket(frame: seq<Byte>, k: U16, s: nat, r: nat, j: nat, block: U32, base: U32,
                              armed: bool): Packet
    requires Geometry(frame, k, s) && j < r && k + r <= MAX_SYMBOLS && |frame| < 0x1_0000_0000
  {
    Packet(Wrapped(base + k + j), block, DataFlags(j == r - 1, true, armed),
      RepairPayload(j, k, base, |frame|, SymbolData(k, s, Padded(frame, k, s), Repair(j))))
  }

  ghost function SourcePackets(frame: seq<Byte>, k: U16, s: nat, r: nat, n: nat, block: U32, base: U32,
                               armed: bool): (p: seq<Packet>)
    requires Geometry(frame, k, s) && n <= k
    ensures |p| == n && forall i :: 0 <= i < n ==> p[i] == SourcePacket(frame, k, s, r, i, block, base, armed)
  {
    seq(n, i requires 0 <= i < n => SourcePacket(frame, k, s, r, i, block, base, armed))
  }

  ghost function RepairPackets(frame: seq<Byte>, k: U16, s: nat, r: nat, n: nat, block: U32, base: U32,
                               armed: bool): (p: seq<Packet>)
    requires Geometry(frame, k, s) && |frame| < 0x1_0000_0000 && n <= r && (n == 0 || k + r <= MAX_SYMBOLS)
    ensures |p| == n && forall j :: 0 <= j < n ==> p[j] == RepairPacket(frame, k, s, r, j, block, base, armed)
  {
    seq(n, j requires 0 <= j < n => RepairPacket(frame, k, s, r, j, block, base, armed))
  }

  /** Sequence numbers wrap at 32 bits. */
  function Wrapped(n: nat): U32 {
    n % 0x1_0000_0000
  }

  lemma WrappedSmall(n: U32)
    ensures Wrapped(n) == n
  {
  }

  lemma WrappedNext(n: nat)
    ensures Wrapped(Wrapped(n) + 1) == Wrapped(n + 1)
  {
  }

  lemma SourcePacketsStep(frame: seq<Byte>, k: U16, s: nat, r: nat, n: nat, block: U32, base: U32, armed: bool)
    requires Geometry(frame, k, s) && n < k
    ensures SourcePackets(frame, k, s, r, n + 1, block, base, armed)
      == SourcePackets(frame, k, s, r, n, block, base, armed) + [SourcePacket(frame, k, s, r, n, block, base, armed)]
    ensures SourcePackets(frame, k, s, r, 0, block, base, armed) == []
  {
    hide Geometry, SourcePacket;
  }

  lemma RepairPacketsStep(frame: seq<Byte>, k: U16, s: nat, r: nat, n: nat, block: U32, base: U32, armed: bool)
    requires Geometry(frame, k, s) && |frame| < 0x1_0000_0000 && n < r && k + r <= MAX_SYMBOLS
    ensures RepairPackets(frame, k, s, r, n + 1, block, base, armed)
      == RepairPackets(frame, k, s, r, n, block, base, armed) + [RepairPacket(frame, k, s, r, n, block, base, armed)]
  {
    hide Geometry, RepairPacket;
  }

  /** Sources first, then repairs; the block ends with its last packet. */
  ghost function BlockPackets(frame: seq<Byte>, k: U16, s: nat, r: nat, block: U32, base: U32, armed: bool): seq<Packet>
    requires Geometry(frame, k, s) && |frame| < 0x1_0000_0000 && (r == 0 || k + r <= MAX_SYMBOLS)
  {
    SourcePackets(frame, k, s, r, k, block, base, armed) + RepairPackets(frame, k, s, r, r, block, base, armed)
  }

  /** A block's packets are numbered in a row, sources before repairs, and its last one alone ends it. */
  lemma BlockInOrder(frame: seq<Byte>, k: U16, s: nat, r: nat, block: U32, base: U32, armed: bool, n: nat)
    requires Geometry(frame, k, s) && |frame| < 0x1_0000_0000 && (r == 0 || k + r <= MAX_SYMBOLS) && n < k + r
    ensures var p := BlockPackets(frame, k, s, r, block, base, armed);
            && |p| == k + r && p[n].sequence == (base + n) % 0x1_0000_0000 && p[n].blockId == block
            && p[n].flags == DataFlags(n == k + r - 1, n >= k, armed)
  {
    hide Geometry, SymbolData, Padded, Chunk;
  }

  /** The packets the DATA buffer holds; the encoder drops the others, and their numbers are skipped. */
  ghost function Carried(packets: seq<Packet>): seq<Packet> {
    if packets == [] then []
    else
      var p := packets[|packets| - 1];
      Carried(packets[..|packets| - 1]) + if |p.payload| <= MAX_DATA_PAYLOAD then [p] else []
  }

  lemma CarriedMore(packets: seq<Packet>, p: Packet)
    ensures Carried(packets + [p]) == Carried(packets) + if |p.payload| <= MAX_DATA_PAYLOAD then [p] else []
  {
    assert (packets + [p])[..|packets|] == packets;
  }

  lemma NothingCarried()
    ensures Carried([]) == []
  {
  }

  lemma {:induction false} CarriedSplits(some: seq<Packet>, more: seq<Packet>)
    ensures Carried(some + more) == Carried(some) + Carried(more)
    decreases |more|
  {
    if more == [] {
      assert some + more == some;
    } else {
      assert (some + more)[..|some + more| - 1] == some + more[..|more| - 1];
      CarriedSplits(some, more[..|more| - 1]);
    }
  }

  lemma {:induction false} AllCarried(packets: seq<Packet>)
    requires forall p :: p in packets ==> |p.payload| <= MAX_DATA_PAYLOAD
    ensures Carried(packets) == packets
  {
    if packets != [] {
      assert packets[|packets| - 1] in packets;
      AllCarried(packets[..|packets| - 1]);
    }
  }

  lemma BlockSplits(frame: seq<Byte>, k: U16, s: nat, r: nat, block: U32, base: U32, armed: bool)
    requires Geometry(frame, k, s) && |frame| < 0x1_0000_0000 && (r == 0 || k + r <= MAX_SYMBOLS)
    ensures Carried(BlockPackets(frame, k, s, r, block, base, armed))
         == Carried(SourcePackets(frame, k, s, r, k, block, base, armed)) + Carried(RepairPackets(frame, k, s, r, r, block, base, armed))
  {
    CarriedSplits(SourcePackets(frame, k, s, r, k, block, base, armed), RepairPackets(frame, k, s, r, r, block, base, armed));
  }

  /** With a symbol size whose repairs fit the buffer, every packet of a block is carried. */
  lemma BlockCarried(frame: seq<Byte>, k: U16, s: nat, r: nat, block: U32, base: U32, armed: bool)
    requires Geometry(frame, k, s) && |frame| < 0x1_0000_0000 && (r == 0 || k + r <= MAX_SYMBOLS)
    requires REPAIR_SUBHEADER + s <= MAX_DATA_PAYLOAD
    ensures Carried(BlockPackets(frame, k, s, r, block, base, armed)) == BlockPackets(frame, k, s, r, block, base, armed)
  {
    var packets := BlockPackets(frame, k, s, r, block, base, armed);
    forall p | p in packets ensures |p.payload| <= MAX_DATA_PAYLOAD {
      var n :| 0 <= n < |packets| && packets[n] == p;
      if n < k { ChunkLength(frame, k, s, n); }
      hide Chunk, SymbolData, Padded, Geometry;
    }
    AllCarried(packets);
  }

  lemma Cut(frame: seq<Byte>, s: nat)
    requires 0 < s < 0x1_0000 && frame != [] && SourceCount(|frame|, s) <= 0xFFFF
    ensures Geometry(frame, SourceCount(|frame|, s), s) && |frame| < 0x1_0000_0000
  {
    CountBounds(|frame|, s);
  }

  lemma GuardMeans(fec: FecConfig, len: nat, s: nat, k: U16)
    requires s > 0 && len > 0
    ensures JumboGuard(fec, len, s, k) ==> k < FEC_PROTECTION_K && fec.scheme == Rlc256
  {
  }

  /** 65535 symbols of a packet's size hold less than 2^32 bytes. */
  lemma CountBounds(len: nat, s: nat)
    requires 0 < s < 0x1_0000 && len > 0 && SourceCount(len, s) <= 0xFFFF
    ensures len < 0x1_0000_0000
  {
    var q := (len - 1) / s;
    assert len - 1 == q * s + (len - 1) % s;
    assert q * s <= 0xFFFE * s <= 0xFFFE * 0xFFFF;
  }

  class FrameFramer {
    const t: Tables
    var fec: FecConfig
    var profileMaxPayload: U16
    var negotiatedBudget: U16
    var csaArmed: bool
    var nextSeq: U32
    var blockId: U32
    var overrideParity: Option<U16>

    constructor (tables: Tables, config: FecConfig)
      ensures t == tables && fec == config && nextSeq == 0 && blockId == 0 && overrideParity == None && !csaArmed
      ensures profileMaxPayload == negotiatedBudget == DEFAULT_MAX_PAYLOAD
    {
      t := tables;
      fec := config;
      profileMaxPayload, negotiatedBudget := DEFAULT_MAX_PAYLOAD, DEFAULT_MAX_PAYLOAD;
      csaArmed, nextSeq, blockId, overrideParity := false, 0, 0, None;
    }

    function EffectiveBudget(): U16
      reads this
    {
      if profileMaxPayload < negotiatedBudget then profileMaxPayload else negotiatedBudget
    }

    function SymbolSize(): (s: nat)
      reads this
      ensures 0 < s && s + DATA_HEADER + REPAIR_SUBHEADER == if EffectiveBudget() > 37 then EffectiveBudget() else 38
    {
      var s := EffectiveBudget() - DATA_HEADER - REPAIR_SUBHEADER;
      if s > 0 then s else 1
    }

    /** Fragment one frame; the override is consumed whatever the outcome. */
    method OnFrame(frame: seq<Byte>) returns (ok: bool, packets: seq<Packet>)
      requires t.Valid()
      modifies this`overrideParity, this`nextSeq, this`blockId
      ensures overrideParity == None
      ensures ok <==> |frame| >= FRAME_META && SourceCount(|frame|, SymbolSize()) <= 0xFFFF
      ensures ok ==> |frame| < 0x1_0000_0000
      ensures !ok ==> packets == [] && nextSeq == old(nextSeq) && blockId == old(blockId)
      ensures ok ==>
        var s := SymbolSize();
        var k := SourceCount(|frame|, s);
        var r := PlannedRepairs(fec, old(overrideParity), ClassOf(frame), k, JumboGuard(fec, |frame|, s, k));
        && (r == 0 || k + r <= MAX_SYMBOLS)
        && packets == Carried(BlockPackets(frame, k, s, r, old(blockId), old(nextSeq), csaArmed))
        && nextSeq == Wrapped(old(nextSeq) + k + r)
        && blockId == Wrapped(old(blockId) + 1)
    {
      hide Carried, BlockPackets, SourcePackets, RepairPackets, PlannedRepairs, JumboGuard, ClassOf, Geometry, SourceCount, Wrapped;
      packets := [];
      var parity := overrideParity;
      overrideParity := None;
      if |frame| < FRAME_META {
        return false, [];
      }
      var s := SymbolSize();
      var kWide := SourceCount(|frame|, s);
      if kWide > 0xFFFF {
        return false, [];
      }
      Cut(frame, s);
      var k: U16 := kWide;
      var block, base := blockId, nextSeq;
      blockId := Wrapped(blockId + 1);
      var guarded := JumboGuard(fec, |frame|, s, k);
      GuardMeans(fec, |frame|, s, k);
      var r := PlannedRepairs(fec, parity, ClassOf(frame), k, guarded);
      PlannedFits(fec, parity, ClassOf(frame), k, guarded);
      packets := EmitBlock(frame, k, s, r, block, base);
      ok := true;
    }

    method EmitBlock(frame: seq<Byte>, k: U16, s: nat, r: nat, block: U32, base: U32) returns (packets: seq<Packet>)
      requires t.Valid() && Geometry(frame, k, s) && |frame| < 0x1_0000_0000 && (r == 0 || k + r <= MAX_SYMBOLS)
      requires nextSeq == base
      modifies this`nextSeq
      ensures packets == Carried(BlockPackets(frame, k, s, r, block, base, csaArmed)) && nextSeq == Wrapped(base + k + r)
    {
      hide Carried, BlockPackets, SourcePackets, RepairPackets, Geometry, TablesCorrect;
      var sources := EmitSources(frame, k, s, r, block, base);
      var repairs := EmitRepairs(frame, k, s, r, block, base);
      packets := sources + repairs;
      BlockSplits(frame, k, s, r, block, base, csaArmed);
    }

    method EmitSources(frame: seq<Byte>, k: U16, s: nat, r: nat, block: U32, base: U32) returns (packets: seq<Packet>)
      requires Geometry(frame, k, s) && nextSeq == base
      modifies this`nextSeq
      ensures packets == Carried(SourcePackets(frame, k, s, r, k, block, base, csaArmed)) && nextSeq == Wrapped(base + k)
    {
      hide Chunk, SourcePackets, Wrapped, Carried;
      WrappedSmall(base);
      packets := [];
      NothingCarried();
      var i := 0;
      while i < k
        invariant 0 <= i <= k && nextSeq == Wrapped(base + i)
        invariant packets == Carried(SourcePackets(frame, k, s, r, i, block, base, csaArmed))
      {
        ChunkLength(frame, k, s, i);
        SourcePacketsStep(frame, k, s, r, i, block, base, csaArmed);
        WrappedNext(base + i);
        var flags := DataFlags(r == 0 && i == k - 1, false, csaArmed);
        var payload := SourcePayload(k, i, Chunk(frame, s, i));
        CarriedMore(SourcePackets(frame, k, s, r, i, block, base, csaArmed), Packet(nextSeq, block, flags, payload));
        if |payload| <= MAX_DATA_PAYLOAD {
          packets := packets + [Packet(nextSeq, block, flags, payload)];
        }
        nextSeq := Wrapped(nextSeq + 1);
        i := i + 1;
      }
    }

    method EmitRepairs(frame: seq<Byte>, k: U16, s: nat, r: nat, block: U32, base: U32) returns (packets: seq<Packet>)
      requires t.Valid() && Geometry(frame, k, s) && |frame| < 0x1_0000_0000 && (r == 0 || k + r <= MAX_SYMBOLS)
      requires nextSeq == Wrapped(base + k)
      modifies this`nextSeq
      ensures packets == Carried(RepairPackets(frame, k, s, r, r, block, base, csaArmed))
      ensures nextSeq == Wrapped(base + k + r)
    {
      hide TablesCorrect, Chunk, RepairPackets, Padded, SymbolData, Wrapped, Carried;
      packets := [];
      NothingCarried();
      var padded := Padded(frame, k, s);
      var coded := new Byte[s];
      var j := 0;
      while j < r
        invariant 0 <= j <= r && nextSeq == Wrapped(base + k + j)
        invariant packets == Carried(RepairPackets(frame, k, s, r, j, block, base, csaArmed))
      {
        RepairPacketsStep(frame, k, s, r, j, block, base, csaArmed);
        WrappedNext(base + k + j);
        EncodeRepair(t, k, j, padded, coded);
        var flags := DataFlags(j == r - 1, true, csaArmed);
        var payload := RepairPayload(j, k, base, |frame|, coded[..]);
        CarriedMore(RepairPackets(frame, k, s, r, j, block, base, csaArmed), Packet(nextSeq, block, flags, payload));
        if |payload| <= MAX_DATA_PAYLOAD {
          packets := packets + [Packet(nextSeq, block, flags, payload)];
        }
        nextSeq := Wrapped(nextSeq + 1);
        j := j + 1;
      }
    }
  }
}
