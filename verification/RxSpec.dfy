/** One latched stream of the merged receive engine, as functions of its state. */
module RxSpec {
  import opened Bytes
  import opened Keys
  import opened FrameBlock

  const SEQ_END := 0x1_0000_0000

  datatype Policy = Policy(clampPackets: U32, clampBlocks: U32, dwellMs: U32, resyncMs: U32)

  datatype Kept = Kept(block: U32, flags: DataFlags, payload: seq<Byte>, early: bool)

  datatype Gap = Gap(since: nat, lost: bool, superseded: bool, satisfied: bool)

  datatype Info = Info(firstSeen: nat, deadline: nat)

  /** One packet handed out, at its turn or early. */
  datatype Delivery = Delivery(at: U32, block: U32, payload: seq<Byte>, early: bool)

  /** The stream's counters, and two the code leaves implicit: held packets consumed and gaps skipped as satisfied. */
  datatype Tally = Tally(uniq: nat, diversity: nat, delivered: nat, lostDeclared: nat, superseded: nat, deadline: nat,
                         unrecoverable: nat, clampRejected: nat, resyncs: nat, consumed: nat, satisfied: nat)

  /**
   * The stream; floor, base and log go back to the last (re)floor: where it was, the counters then, what was
   * handed out since. Earlier is what was handed out before.
   */
  datatype Stream = Stream(cursor: U32, maxSeq: U32, maxBlock: U32, lastDelivered: U32, held: map<nat, Kept>, gaps: map<nat, Gap>,
                           blocks: map<nat, Info>, completed: set<nat>, firstClamp: nat, bestEffort: bool, tally: Tally,
                           floor: U32, base: Tally, earlier: seq<Delivery>, log: seq<Delivery>)

  const NO_TALLY := Tally(0, 0, 0, 0, 0, 0, 0, 0, 0, 0, 0)

  /** A latched tuple starts at the packet that qualified it. */
  function Latched(at: U32, block: U32): Stream {
    Stream(at, at, block, block, map[], map[], map[], {}, 0, false, NO_TALLY, at, NO_TALLY, [], [])
  }

  predicate PlausibleForward(reference: U32, candidate: U32, clamp: U32) {
    candidate <= reference || candidate - reference <= clamp
  }

  // ---- neighbours in the held map ---------------------------------------------------------------

  /** The nearest held sequence number from m upwards, none beyond top. */
  function HeldFrom(held: map<nat, Kept>, m: nat, top: nat): (r: Option<nat>)
    ensures r.Some? ==> m <= r.value <= top && r.value in held && forall x :: m <= x < r.value ==> x !in held
    ensures r.None? ==> forall x :: m <= x <= top ==> x !in held
    decreases top + 1 - m
  {
    if m > top then None else if m in held then Some(m) else HeldFrom(held, m + 1, top)
  }

  /** The nearest held sequence number below m, none under bottom. */
  function HeldBelow(held: map<nat, Kept>, m: nat, bottom: nat): (r: Option<nat>)
    ensures r.Some? ==> bottom <= r.value < m && r.value in held && forall x :: r.value < x < m ==> x !in held
    ensures r.None? ==> forall x :: bottom <= x < m ==> x !in held
    decreases m
  {
    if m <= bottom then None else if m - 1 in held then Some(m - 1) else HeldBelow(held, m - 1, bottom)
  }

  /** The block a sequence number belongs to, judged by its received neighbours. */
  function GapBlock(s: Stream, m: nat): Option<U32> {
    var upper, lower := HeldFrom(s.held, m, s.maxSeq), HeldBelow(s.held, m, s.cursor);
    if upper.Some? && upper.value == m then Some(s.held[m].block)
    else if upper.Some? && lower.Some? then
      var u, l := s.held[upper.value], s.held[lower.value];
      if u.block == l.block || l.flags.endOfBlock then Some(u.block) else Some(l.block)
    else if upper.Some? then Some(s.held[upper.value].block)
    else if lower.Some? then Some(s.held[lower.value].block)
    else None
  }

  /** Block of the nearest packet received above m. */
  function BlockAbove(s: Stream, m: nat): Option<U32> {
    var upper := HeldFrom(s.held, m + 1, s.maxSeq);
    if upper.Some? then Some(s.held[upper.value].block) else None
  }

  // ---- gaps ---------------------------------------------------------------------------------------

  function NewGap(s: Stream, m: nat, now: nat): Gap {
    var block := GapBlock(s, m);
    Gap(now, false, false, block.Some? && block.value in s.completed)
  }

  /** Everything missing between cursor and newest becomes a gap. */
  function GapsNoted(policy: Policy, s: Stream, now: nat): Stream {
    if s.maxSeq < s.cursor || s.maxSeq - s.cursor > policy.clampPackets then s
    else
      var missing := map m | s.cursor <= m < s.maxSeq && m !in s.held && m !in s.gaps :: NewGap(s, m, now);
      s.(gaps := s.gaps + missing)
  }

  /** Only the most recent few completed blocks are remembered. */
  function Trimmed(blocks: set<nat>, n: nat): set<nat>
    decreases |blocks|
  {
    if |blocks| > n then
      Smaller(blocks, Least(blocks));
      Trimmed(blocks - {Least(blocks)}, n)
    else blocks
  }

  /** A completed frame satisfies the gaps that belong to it. */
  function Completed(policy: Policy, s: Stream, block: U32): Stream {
    s.(completed := Trimmed(s.completed + {block}, (policy.clampBlocks + 2) % 0x1_0000_0000),
       gaps := map m | m in s.gaps :: if GapBlock(s, m) == Some(block) then s.gaps[m].(satisfied := true) else s.gaps[m])
  }

  lemma GapKeys(gaps: map<nat, Gap>)
    ensures forall i :: 0 <= i < |Ascending(gaps.Keys)| ==> Ascending(gaps.Keys)[i] in gaps
  {
    AscendingProperties(gaps.Keys);
    forall i | 0 <= i < |Ascending(gaps.Keys)| ensures Ascending(gaps.Keys)[i] in gaps {
      assert Ascending(gaps.Keys)[i] in Ascending(gaps.Keys);
    }
  }

  function Judged(policy: Policy, s: Stream, m: nat, g: Gap, live: Option<U32>, now: nat): Gap {
    if g.satisfied then g
    else
      var above := BlockAbove(s, m);
      var superseded := g.superseded || (!s.bestEffort && above.Some? && above.value < s.maxBlock);
      var declared := (live.Some? && live.value > m) || Since(now, g.since) >= policy.dwellMs;
      g.(superseded := superseded, lost := g.lost || declared)
  }

  /** How many of the gaps became lost. */
  function NewlyLost(before: map<nat, Gap>, gaps: map<nat, Gap>, ids: seq<nat>): nat
    requires forall i :: 0 <= i < |ids| ==> ids[i] in before && ids[i] in gaps
  {
    if ids == [] then 0
    else
      var m := ids[|ids| - 1];
      NewlyLost(before, gaps, ids[..|ids| - 1]) + if gaps[m].lost && !before[m].lost then 1 else 0
  }

  /** Every gap is looked at for supersession and loss; live is the least position of the live adapters. */
  function Evaluated(policy: Policy, s: Stream, live: Option<U32>, now: nat): Stream {
    var judged := map m | m in s.gaps :: Judged(policy, s, m, s.gaps[m], live, now);
    GapKeys(s.gaps);
    s.(gaps := judged, tally := s.tally.(lostDeclared := s.tally.lostDeclared + NewlyLost(s.gaps, judged, Ascending(s.gaps.Keys))))
  }

  // ---- the cursor ---------------------------------------------------------------------------------

  datatype Skip = Satisfied | Superseded | Deadline | Unrecoverable

  /** Why the gap at the cursor is given up, if it is. */
  function SkipReason(s: Stream, g: Gap, now: nat): Option<Skip> {
    if g.satisfied then Some(Satisfied)
    else if g.superseded then Some(Superseded)
    else if !s.bestEffort then
      var above := BlockAbove(s, s.cursor);
      if above.Some? && above.value in s.blocks && now >= s.blocks[above.value].deadline then Some(Deadline) else None
    else if g.lost then Some(Unrecoverable)
    else None
  }

  function Skipped(t: Tally, why: Skip): Tally {
    match why
    case Satisfied => t.(satisfied := t.satisfied + 1)
    case Superseded => t.(superseded := t.superseded + 1)
    case Deadline => t.(deadline := t.deadline + 1)
    case Unrecoverable => t.(unrecoverable := t.unrecoverable + 1)
  }

  /** A new floor at position at: nothing held, nothing missing, the books opened afresh. */
  function Floored(s: Stream, at: U32, block: U32): Stream {
    var t := s.tally.(resyncs := s.tally.resyncs + 1);
    s.(cursor := at, maxSeq := at, maxBlock := block, lastDelivered := block, held := map[], gaps := map[], blocks := map[],
       completed := {}, tally := t, floor := at, base := t, earlier := s.earlier + s.log, log := [])
  }

  /** The cursor steps on; past the last sequence number it re-floors at zero. */
  function Stepped(s: Stream): Stream {
    if s.cursor + 1 < SEQ_END then s.(cursor := s.cursor + 1)
    else Floored(s, 0, s.lastDelivered).(firstClamp := 0)
  }

  function Pruned(s: Stream): map<nat, Info> {
    map b | b in s.blocks && b >= s.lastDelivered :: s.blocks[b]
  }

  /** The packet at the cursor leaves the held map, handed out unless it was early. */
  function Consumed(s: Stream): Stream
    requires s.cursor in s.held
  {
    var h := s.held[s.cursor];
    var t := s.tally.(consumed := s.tally.consumed + 1, delivered := s.tally.delivered + if h.early then 0 else 1);
    s.(held := s.held - {s.cursor}, gaps := s.gaps - {s.cursor}, lastDelivered := h.block, tally := t,
       log := if h.early then s.log else s.log + [Delivery(s.cursor, h.block, h.payload, false)])
  }

  function GivenUp(s: Stream, why: Skip): Stream {
    s.(gaps := s.gaps - {s.cursor}, tally := Skipped(s.tally, why))
  }

  function Advanced(s: Stream, now: nat): Stream
    decreases s.maxSeq - s.cursor + 1
  {
    if s.cursor > s.maxSeq then s
    else if s.cursor in s.held then
      var c := Consumed(s);
      if s.cursor + 1 < SEQ_END then Advanced(Stepped(c).(blocks := Pruned(c)), now) else Stepped(c)
    else if s.cursor in s.gaps then
      var why := SkipReason(s, s.gaps[s.cursor], now);
      if why.None? then s
      else
        var g := GivenUp(s, why.value);
        if s.cursor + 1 < SEQ_END then Advanced(Stepped(g), now) else Stepped(g)
    else s
  }

  function Settled(policy: Policy, s: Stream, live: Option<U32>, now: nat): Stream {
    Advanced(Evaluated(policy, s, live, now), now)
  }

  // ---- packets --------------------------------------------------------------------------------------

  /** What the early consumer made of a packet. */
  datatype Early = Early(handled: bool, complete: bool)

  /** Past the clamps, or what the clamps make of the stream. */
  datatype Entry = Refused(s: Stream) | Entered(s: Stream)

  function Entering(policy: Policy, s: Stream, p: Packet, now: nat): Entry {
    if PlausibleForward(s.cursor, p.sequence, policy.clampPackets) && PlausibleForward(s.maxBlock, p.blockId, policy.clampBlocks)
    then Entered(s.(firstClamp := 0))
    else
      var r := s.(tally := s.tally.(clampRejected := s.tally.clampRejected + 1));
      if s.firstClamp == 0 then Refused(r.(firstClamp := now))
      else if now <= s.firstClamp || now - s.firstClamp < policy.resyncMs then Refused(r)
      else Entered(Floored(r, p.sequence, p.blockId).(firstClamp := 0))
  }

  predicate Duplicate(s: Stream, p: Packet) {
    p.sequence < s.cursor || p.sequence in s.held
  }

  /** A new packet is filed: newest marks, block deadline, held map. */
  function Filed(s: Stream, p: Packet, budget: nat, now: nat): Stream {
    var info :=
      var seen := if p.blockId in s.blocks && s.blocks[p.blockId].firstSeen != 0 then s.blocks[p.blockId].firstSeen else now;
      Info(seen, seen + budget);
    s.(gaps := s.gaps - {p.sequence}, maxSeq := if p.sequence > s.maxSeq then p.sequence else s.maxSeq,
       maxBlock := if p.blockId > s.maxBlock then p.blockId else s.maxBlock,
       blocks := if s.bestEffort then s.blocks else s.blocks[p.blockId as nat := info],
       held := s.held[p.sequence as nat := Kept(p.blockId, p.flags, p.payload, false)],
       tally := s.tally.(uniq := s.tally.uniq + 1))
  }

  /** The early consumer took the packet just filed. */
  function TakenEarly(s: Stream, p: Packet): Stream
    requires p.sequence in s.held
  {
    s.(held := s.held[p.sequence as nat := s.held[p.sequence].(early := true)],
       tally := s.tally.(delivered := s.tally.delivered + 1),
       log := s.log + [Delivery(p.sequence, p.blockId, p.payload, true)])
  }

  function Offered(policy: Policy, s: Stream, p: Packet, early: Option<Early>): Stream
    requires p.sequence in s.held
  {
    if early.None? then s
    else
      var taken := if early.value.handled then TakenEarly(s, p) else s;
      if early.value.complete then Completed(policy, taken, p.blockId) else taken
  }

  function Heard(policy: Policy, s: Stream, p: Packet, mismatch: bool, budget: nat, live: Option<U32>,
                 early: Option<Early>, now: nat): Stream {
    match Entering(policy, s.(bestEffort := s.bestEffort || mismatch), p, now)
    case Refused(r) => r
    case Entered(e) =>
      if Duplicate(e, p) then e.(tally := e.tally.(diversity := e.tally.diversity + 1))
      else
        Settled(policy, Offered(policy, GapsNoted(policy, Filed(e, p, budget, now), now), p, early), live, now)
  }

  function FrameCompleted(policy: Policy, s: Stream, block: U32, live: Option<U32>, now: nat): Stream {
    Settled(policy, Completed(policy, s, block), live, now)
  }
}
