/** The receive engine's handling of one latched stream, step by step. */
module RxEngine {
  import opened Bytes
  import opened Keys
  import opened FrameBlock
  import opened RxSpec

  /** Forget the oldest completed blocks beyond the number kept. */
  method Trim(blocks: set<nat>, n: nat) returns (kept: set<nat>)
    ensures kept == Trimmed(blocks, n)
  {
    kept := blocks;
    while |kept| > n
      invariant Trimmed(blocks, n) == Trimmed(kept, n)
      decreases |kept|
    {
      var least := Least(kept);
      Smaller(kept, least);
      kept := kept - {least};
    }
  }

  /** Drop the block infos older than the last delivered block, oldest first. */
  method PruneBlocks(blocks: map<nat, Info>, last: U32) returns (kept: map<nat, Info>)
    ensures kept == map b | b in blocks && b >= last :: blocks[b]
  {
    kept := blocks;
    while kept.Keys != {} && Least(kept.Keys) < last
      invariant forall b :: b in kept ==> b in blocks && kept[b] == blocks[b]
      invariant forall b :: b in blocks && b >= last ==> b in kept
      decreases |kept.Keys|
    {
      var least := Least(kept.Keys);
      Smaller(kept.Keys, least);
      assert (kept - {least}).Keys == kept.Keys - {least};
      kept := kept - {least};
    }
    assert forall b :: b in kept ==> b in kept.Keys;
  }

  /** The gaps of a stream after the ones missing are added. */
  method WithMissing(s: Stream, now: nat) returns (gaps: map<nat, Gap>)
    requires s.cursor <= s.maxSeq
    ensures gaps == s.gaps + map m | s.cursor <= m < s.maxSeq && m !in s.held && m !in s.gaps :: NewGap(s, m, now)
  {
    hide NewGap;
    gaps := s.gaps;
    var m: nat := s.cursor;
    while m < s.maxSeq
      invariant s.cursor <= m <= s.maxSeq
      invariant forall x :: x in gaps <==> x in s.gaps || (s.cursor <= x < m && x !in s.held)
      invariant forall x :: x in gaps ==> gaps[x] == if x in s.gaps then s.gaps[x] else NewGap(s, x, now)
    {
      if m !in s.held && m !in gaps {
        gaps := gaps[m := NewGap(s, m, now)];
      }
      m := m + 1;
    }
  }

  lemma InOrder(keys: set<nat>, m: nat)
    requires m in keys
    ensures exists q :: 0 <= q < |Ascending(keys)| && Ascending(keys)[q] == m
  {
    AscendingProperties(keys);
    assert m in Ascending(keys);
  }

  /** A gap once a block is complete. */
  function Marked(s: Stream, block: U32, m: nat): Gap
    requires m in s.gaps
  {
    if GapBlock(s, m) == Some(block) then s.gaps[m].(satisfied := true) else s.gaps[m]
  }

  /** The gaps of a stream after those of a completed block are satisfied. */
  method WithSatisfied(s: Stream, block: U32) returns (gaps: map<nat, Gap>)
    ensures gaps == map m | m in s.gaps :: Marked(s, block, m)
  {
    gaps := s.gaps;
    var ids := Ascending(s.gaps.Keys);
    AscendingProperties(s.gaps.Keys);
    hide Ascending, Marked, GapBlock;
    var i := 0;
    while i < |ids|
      invariant 0 <= i <= |ids| && gaps.Keys == s.gaps.Keys
      invariant forall q :: 0 <= q < |ids| ==> ids[q] in s.gaps.Keys
      invariant forall q :: i <= q < |ids| ==> gaps[ids[q]] == s.gaps[ids[q]]
      invariant forall q :: 0 <= q < i ==> gaps[ids[q]] == Marked(s, block, ids[q])
    {
      MarkedOne(s, block, ids[i]);
      if GapBlock(s, ids[i]) == Some(block) {
        gaps := gaps[ids[i] := gaps[ids[i]].(satisfied := true)];
      }
      i := i + 1;
    }
    forall m | m in s.gaps.Keys ensures gaps[m] == Marked(s, block, m) { InOrder(s.gaps.Keys, m); }
  }

  lemma MarkedOne(s: Stream, block: U32, m: nat)
    requires m in s.gaps
    ensures Marked(s, block, m) == if GapBlock(s, m) == Some(block) then s.gaps[m].(satisfied := true) else s.gaps[m]
  {
    hide GapBlock;
  }

  /** The gaps of a stream after judging each. */
  method WithVerdicts(policy: Policy, s: Stream, live: Option<U32>, now: nat) returns (gaps: map<nat, Gap>)
    ensures gaps == map m | m in s.gaps :: Judged(policy, s, m, s.gaps[m], live, now)
  {
    hide Judged;
    gaps := s.gaps;
    var ids := Ascending(s.gaps.Keys);
    AscendingProperties(s.gaps.Keys);
    hide Ascending;
    var i := 0;
    while i < |ids|
      invariant 0 <= i <= |ids| && gaps.Keys == s.gaps.Keys
      invariant forall q :: 0 <= q < |ids| ==> ids[q] in s.gaps.Keys
      invariant forall q :: i <= q < |ids| ==> gaps[ids[q]] == s.gaps[ids[q]]
      invariant forall q :: 0 <= q < i ==> gaps[ids[q]] == Judged(policy, s, ids[q], s.gaps[ids[q]], live, now)
    {
      gaps := gaps[ids[i] := Judged(policy, s, ids[i], gaps[ids[i]], live, now)];
      i := i + 1;
    }
    forall m | m in s.gaps.Keys ensures gaps[m] == Judged(policy, s, m, s.gaps[m], live, now) {
      InOrder(s.gaps.Keys, m);
    }
  }

  /** How many gaps were declared lost by the judgement. */
  method CountLost(before: map<nat, Gap>, gaps: map<nat, Gap>, ids: seq<nat>) returns (lost: nat)
    requires forall i :: 0 <= i < |ids| ==> ids[i] in before && ids[i] in gaps
    ensures lost == NewlyLost(before, gaps, ids)
  {
    lost := 0;
    var i := 0;
    while i < |ids|
      invariant 0 <= i <= |ids| && lost == NewlyLost(before, gaps, ids[..i])
    {
      assert ids[..i + 1][..i] == ids[..i];
      if gaps[ids[i]].lost && !before[ids[i]].lost {
        lost := lost + 1;
      }
      i := i + 1;
    }
    assert ids[..i] == ids;
  }

  class RxEngine {
    const policy: Policy
    var s: Stream

    constructor (policy: Policy, first: Packet)
      ensures this.policy == policy && s == Latched(first.sequence, first.blockId)
    {
      this.policy := policy;
      s := Latched(first.sequence, first.blockId);
    }

    /** One packet goes to the consumer. */
    method Deliver(at: U32, h: Kept, early: bool)
      modifies this
      ensures s == old(s).(log := old(s).log + [Delivery(at, h.block, h.payload, early)],
                           tally := old(s).tally.(delivered := old(s).tally.delivered + 1))
    {
      s := s.(log := s.log + [Delivery(at, h.block, h.payload, early)], tally := s.tally.(delivered := s.tally.delivered + 1));
    }

    method NoteGaps(now: nat)
      modifies this
      ensures s == GapsNoted(policy, old(s), now)
    {
      if s.maxSeq < s.cursor || s.maxSeq - s.cursor > policy.clampPackets {
        return;
      }
      var gaps := WithMissing(s, now);
      s := s.(gaps := gaps);
    }

    method MarkFrameComplete(block: U32)
      modifies this
      ensures s == Completed(policy, old(s), block)
    {
      var gaps := WithSatisfied(s, block);
      assert gaps == Completed(policy, s, block).gaps;
      var kept := Trim(s.completed + {block}, (policy.clampBlocks + 2) % 0x1_0000_0000);
      assert kept == Completed(policy, s, block).completed;
      s := s.(completed := kept, gaps := gaps);
    }

    method EvaluateGaps(live: Option<U32>, now: nat)
      modifies this
      ensures s == Evaluated(policy, old(s), live, now)
    {
      var gaps := WithVerdicts(policy, s, live, now);
      GapKeys(s.gaps);
      var lost := CountLost(s.gaps, gaps, Ascending(s.gaps.Keys));
      s := s.(gaps := gaps, tally := s.tally.(lostDeclared := s.tally.lostDeclared + lost));
    }

    /** The cursor moves one on; past the last sequence number the stream re-floors. */
    method StepCursor() returns (wrapped: bool)
      modifies this
      ensures s == Stepped(old(s)) && (wrapped <==> old(s).cursor + 1 == SEQ_END)
    {
      if s.cursor + 1 == SEQ_END {
        s := Floored(s, 0, s.lastDelivered).(firstClamp := 0);
        return true;
      }
      s := s.(cursor := s.cursor + 1);
      return false;
    }

    method AdvanceCursor(now: nat)
      modifies this
      ensures s == Advanced(old(s), now)
    {
      hide SkipReason;
      ghost var was := s;
      while s.cursor <= s.maxSeq
        invariant Advanced(s, now) == Advanced(was, now)
        decreases s.maxSeq - s.cursor + 1
      {
        if s.cursor in s.held {
          ghost var before := s;
          var h := s.held[s.cursor];
          if !h.early {
            Deliver(s.cursor, h, false);
          }
          s := s.(lastDelivered := h.block, held := s.held - {s.cursor}, gaps := s.gaps - {s.cursor},
                  tally := s.tally.(consumed := s.tally.consumed + 1));
          assert s == Consumed(before);
          var wrapped := StepCursor();
          if wrapped {
            return;
          }
          var kept := PruneBlocks(s.blocks, s.lastDelivered);
          s := s.(blocks := kept);
        } else if s.cursor in s.gaps {
          var why := SkipReason(s, s.gaps[s.cursor], now);
          if why.None? {
            return;
          }
          s := s.(gaps := s.gaps - {s.cursor}, tally := Skipped(s.tally, why.value));
          var wrapped := StepCursor();
          if wrapped {
            return;
          }
        } else {
          return;
        }
      }
    }

    /** Clamps and the sustained-clamp escape; false when the packet goes no further. */
    method Enter(p: Packet, now: nat) returns (entered: bool)
      modifies this
      ensures var e := Entering(policy, old(s), p, now); s == e.s && (entered <==> e.Entered?)
    {
      if !PlausibleForward(s.cursor, p.sequence, policy.clampPackets)
         || !PlausibleForward(s.maxBlock, p.blockId, policy.clampBlocks) {
        s := s.(tally := s.tally.(clampRejected := s.tally.clampRejected + 1));
        if s.firstClamp == 0 {
          s := s.(firstClamp := now);
          return false;
        }
        if now <= s.firstClamp || now - s.firstClamp < policy.resyncMs {
          return false;
        }
        s := Floored(s, p.sequence, p.blockId);
      }
      s := s.(firstClamp := 0);
      return true;
    }

    /** A first copy is filed under its sequence number; newest marks and block deadline follow. */
    method File(p: Packet, budget: nat, now: nat)
      modifies this
      ensures s == Filed(old(s), p, budget, now)
    {
      s := s.(gaps := s.gaps - {p.sequence}, tally := s.tally.(uniq := s.tally.uniq + 1));
      if p.sequence > s.maxSeq {
        s := s.(maxSeq := p.sequence);
      }
      if p.blockId > s.maxBlock {
        s := s.(maxBlock := p.blockId);
      }
      if !s.bestEffort {
        var first := if p.blockId in s.blocks then s.blocks[p.blockId].firstSeen else 0;
        if first == 0 {
          first := now;
        }
        s := s.(blocks := s.blocks[p.blockId as nat := Info(first, first + budget)]);
      }
      s := s.(held := s.held[p.sequence as nat := Kept(p.blockId, p.flags, p.payload, false)]);
    }

    /** The early consumer took the packet just filed, or completed its block with it. */
    method Offer(p: Packet, early: Early)
      requires p.sequence in s.held && s.held[p.sequence] == Kept(p.blockId, p.flags, p.payload, false)
      modifies this
      ensures s == Offered(policy, old(s), p, Some(early))
    {
      hide Completed;
      if early.handled {
        var h := s.held[p.sequence];
        s := s.(held := s.held[p.sequence as nat := h.(early := true)]);
        Deliver(p.sequence, h, true);
      }
      if early.complete {
        MarkFrameComplete(p.blockId);
      }
    }

    /** One DATA packet of the stream; early is the frame consumer's answer if there is one. */
    method OnData(p: Packet, mismatch: bool, budget: nat, live: Option<U32>, early: Option<Early>, now: nat)
      modifies this
      ensures s == Heard(policy, old(s), p, mismatch, budget, live, early, now)
    {
      hide Entering, Filed, GapsNoted, TakenEarly, Completed, Evaluated, Advanced;
      if mismatch {
        s := s.(bestEffort := true);
      }
      var entered := Enter(p, now);
      if !entered {
        return;
      }
      if p.sequence < s.cursor || p.sequence in s.held {
        s := s.(tally := s.tally.(diversity := s.tally.diversity + 1));
        return;
      }
      ghost var e := s;
      File(p, budget, now);
      FiledHeld(e, p, budget, now);
      ghost var f := s;
      NoteGaps(now);
      NotedHeld(policy, f, now);
      if early.Some? {
        Offer(p, early.value);
      }
      EvaluateGaps(live, now);
      AdvanceCursor(now);
    }

    /** The frame consumer completed a block. */
    method CompleteFrame(block: U32, live: Option<U32>, now: nat)
      modifies this
      ensures s == FrameCompleted(policy, old(s), block, live, now)
    {
      hide Completed, Evaluated, Advanced;
      MarkFrameComplete(block);
      EvaluateGaps(live, now);
      AdvanceCursor(now);
    }

    method Tick(live: Option<U32>, now: nat)
      modifies this
      ensures s == Settled(policy, old(s), live, now)
    {
      hide Evaluated, Advanced;
      EvaluateGaps(live, now);
      AdvanceCursor(now);
    }
  }

  lemma FiledHeld(s: Stream, p: Packet, budget: nat, now: nat)
    ensures var f := Filed(s, p, budget, now);
            p.sequence in f.held && f.held[p.sequence] == Kept(p.blockId, p.flags, p.payload, false)
  {
  }

  lemma NotedHeld(policy: Policy, s: Stream, now: nat)
    ensures GapsNoted(policy, s, now).held == s.held
  {
    hide NewGap;
  }
}
