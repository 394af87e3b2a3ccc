/** What holds of every run of a receive stream. */
module RxRuns {
  import opened Bytes
  import opened FrameBlock
  import opened RxSpec

  /** Just floored: the first sequence number expected has not come yet. */
  predicate Empty(s: Stream) {
    s.held == map[] && s.gaps == map[] && s.cursor == s.maxSeq
  }

  ghost predicate Ranged(policy: Policy, s: Stream) {
    && s.floor <= s.cursor <= s.maxSeq + 1 && s.maxSeq <= s.cursor + policy.clampPackets
    && (forall m :: m in s.held ==> s.cursor <= m <= s.maxSeq)
    && (forall m :: m in s.gaps ==> s.cursor <= m < s.maxSeq)
  }

  /** From cursor to newest every sequence number is either held or a gap, never both. */
  ghost predicate Partition(s: Stream) {
    Empty(s) || forall m: nat :: s.cursor <= m <= s.maxSeq ==> (m in s.held <==> m !in s.gaps)
  }

  /** Held packets of the newest block have its deadline on file, unless the stream is best-effort. */
  ghost predicate BlocksKnown(s: Stream) {
    && s.lastDelivered <= s.maxBlock
    && (forall m :: m in s.held ==> s.held[m].block <= s.maxBlock)
    && (!s.bestEffort ==> forall m :: m in s.held && s.held[m].block == s.maxBlock ==> s.maxBlock in s.blocks)
  }

  ghost function EarlyHeld(s: Stream): set<nat> {
    set m | m in s.held && s.held[m].early
  }

  /** Since the floor: the cursor's advance is accounted for, and so is every packet accepted. */
  ghost predicate Books(s: Stream) {
    Balanced(s.tally, s.base, s.cursor - s.floor, |s.held|, |EarlyHeld(s)|, |s.log|)
  }

  predicate Balanced(t: Tally, b: Tally, advance: int, held: nat, early: nat, handedOut: nat) {
    && t.consumed >= b.consumed && t.superseded >= b.superseded && t.deadline >= b.deadline
    && t.unrecoverable >= b.unrecoverable && t.satisfied >= b.satisfied
    && advance == (t.consumed - b.consumed) + (t.superseded - b.superseded) + (t.deadline - b.deadline)
                             + (t.unrecoverable - b.unrecoverable) + (t.satisfied - b.satisfied)
    && t.uniq - b.uniq == t.consumed - b.consumed + held
    && t.delivered - b.delivered == t.consumed - b.consumed + early == handedOut
  }

  /** Nothing is handed out twice, turns come in order, and early packets stay marked until their turn. */
  ghost predicate Once(s: Stream) {
    && (forall i, j :: 0 <= i < j < |s.log| ==> s.log[i].at != s.log[j].at)
    && (forall i, j :: 0 <= i < j < |s.log| && !s.log[i].early && !s.log[j].early ==> s.log[i].at < s.log[j].at)
    && (forall d :: d in s.log ==> s.floor <= d.at && (d.at < s.cursor || (d.early && d.at in s.held && s.held[d.at].early)))
  }

  ghost predicate Inv(policy: Policy, s: Stream) {
    Ranged(policy, s) && Partition(s) && BlocksKnown(s) && Books(s) && Once(s)
  }

  lemma LatchedInv(policy: Policy, at: U32, block: U32)
    ensures Inv(policy, Latched(at, block))
  {
    assert EarlyHeld(Latched(at, block)) == {};
  }

  lemma FlooredInv(policy: Policy, s: Stream, at: U32, block: U32)
    ensures Inv(policy, Floored(s, at, block)) && Inv(policy, Floored(s, at, block).(firstClamp := 0))
  {
    assert EarlyHeld(Floored(s, at, block)) == {} == EarlyHeld(Floored(s, at, block).(firstClamp := 0));
  }

  // ---- the cursor -----------------------------------------------------------------------------------

  lemma RemoveSize<K, V>(m: map<K, V>, k: K)
    requires k in m
    ensures |m - {k}| == |m| - 1
  {
    assert (m - {k}).Keys == m.Keys - {k};
    assert |(m - {k}).Keys| == |m - {k}|;
  }

  lemma EarlyConsumed(s: Stream, c: nat)
    requires c == s.cursor && c in s.held
    ensures |EarlyHeld(Consumed(s))| == |EarlyHeld(s)| - if s.held[c].early then 1 else 0
    ensures |Consumed(s).held| == |s.held| - 1
  {
    RemoveSize(s.held, c);
    assert Consumed(s).held == s.held - {c};
    if s.held[c].early {
      assert EarlyHeld(Consumed(s)) == EarlyHeld(s) - {c};
      assert c in EarlyHeld(s);
    } else {
      assert EarlyHeld(Consumed(s)) == EarlyHeld(s);
    }
  }

  lemma SameEarly(s: Stream, s': Stream)
    requires s'.held == s.held
    ensures EarlyHeld(s') == EarlyHeld(s)
  {
  }

  function AfterConsumed(s: Stream): Stream
    requires s.cursor in s.held
  {
    Stepped(Consumed(s)).(blocks := Pruned(Consumed(s)))
  }

  lemma ConsumedBooks(s: Stream)
    requires Books(s) && s.cursor in s.held && s.cursor + 1 < SEQ_END
    ensures Books(AfterConsumed(s))
  {
    EarlyConsumed(s, s.cursor);
    SameEarly(Consumed(s), AfterConsumed(s));
    hide EarlyHeld, Pruned;
  }

  lemma ConsumedOnce(policy: Policy, s: Stream)
    requires Ranged(policy, s) && Once(s) && s.cursor in s.held && s.cursor + 1 < SEQ_END
    ensures Once(AfterConsumed(s))
  {
    hide Pruned;
    var r := AfterConsumed(s);
    forall d | d in r.log ensures s.floor <= d.at && (d.at < r.cursor || (d.early && d.at in r.held && r.held[d.at].early)) {
      if d in s.log && d.at >= s.cursor { assert d.early && d.at in s.held; }
    }
    if !s.held[s.cursor].early {
      forall i | 0 <= i < |s.log| ensures s.log[i].at != s.cursor && (!s.log[i].early ==> s.log[i].at < s.cursor) {
        assert s.log[i] in s.log;
      }
    }
  }

  lemma ConsumedRanged(policy: Policy, s: Stream)
    requires Ranged(policy, s) && Partition(s) && s.cursor in s.held && s.cursor + 1 < SEQ_END
    ensures Ranged(policy, AfterConsumed(s)) && Partition(AfterConsumed(s))
  {
    hide Pruned;
  }

  lemma ConsumedBlocks(s: Stream)
    requires BlocksKnown(s) && s.cursor in s.held && s.cursor + 1 < SEQ_END
    ensures BlocksKnown(AfterConsumed(s))
  {
  }

  lemma ConsumedKeeps(policy: Policy, s: Stream)
    requires Inv(policy, s) && s.cursor in s.held && s.cursor + 1 < SEQ_END
    ensures Inv(policy, AfterConsumed(s))
  {
    hide AfterConsumed, Ranged, Partition, Once, Books, BlocksKnown;
    ConsumedBooks(s);
    ConsumedOnce(policy, s);
    ConsumedRanged(policy, s);
    ConsumedBlocks(s);
  }

  lemma GivenUpBooks(s: Stream, why: Skip)
    requires Books(s) && s.cursor + 1 < SEQ_END
    ensures Books(Stepped(GivenUp(s, why)))
  {
    SameEarly(s, Stepped(GivenUp(s, why)));
    hide EarlyHeld;
  }

  lemma GivenUpRanged(policy: Policy, s: Stream, why: Skip)
    requires Ranged(policy, s) && Partition(s) && s.cursor in s.gaps && s.cursor + 1 < SEQ_END
    ensures Ranged(policy, Stepped(GivenUp(s, why))) && Partition(Stepped(GivenUp(s, why)))
  {
    hide Skipped;
  }

  lemma GivenUpRest(s: Stream, why: Skip)
    requires BlocksKnown(s) && Once(s) && s.cursor + 1 < SEQ_END
    ensures BlocksKnown(Stepped(GivenUp(s, why))) && Once(Stepped(GivenUp(s, why)))
  {
    hide Skipped;
  }

  lemma GivenUpKeeps(policy: Policy, s: Stream, why: Skip)
    requires Inv(policy, s) && s.cursor in s.gaps && s.cursor + 1 < SEQ_END
    ensures Inv(policy, Stepped(GivenUp(s, why)))
  {
    hide Stepped, GivenUp, Ranged, Partition, Once, Books, BlocksKnown;
    GivenUpBooks(s, why);
    GivenUpRanged(policy, s, why);
    GivenUpRest(s, why);
  }

  lemma {:induction false} AdvancedKeeps(policy: Policy, s: Stream, now: nat)
    requires Inv(policy, s)
    ensures Inv(policy, Advanced(s, now))
    decreases s.maxSeq - s.cursor + 1
  {
    if s.cursor <= s.maxSeq && s.cursor in s.held {
      var c := Consumed(s);
      if s.cursor + 1 < SEQ_END {
        ConsumedKeeps(policy, s);
        hide Inv, Pruned;
        AdvancedKeeps(policy, AfterConsumed(s), now);
      } else {
        hide Inv;
        FlooredInv(policy, c, 0, c.lastDelivered);
      }
    } else if s.cursor <= s.maxSeq && s.cursor in s.gaps {
      var why := SkipReason(s, s.gaps[s.cursor], now);
      if why.Some? {
        var g := GivenUp(s, why.value);
        assert s.cursor + 1 < SEQ_END;
        GivenUpKeeps(policy, s, why.value);
        hide Inv, SkipReason;
        AdvancedKeeps(policy, Stepped(g), now);
      }
    }
  }

  // ---- attributes of gaps -----------------------------------------------------------------------------

  /** Changing what is known about gaps, but not which there are. */
  lemma GapsRejudged(policy: Policy, s: Stream, s': Stream)
    requires Inv(policy, s) && s'.gaps.Keys == s.gaps.Keys
    requires s' == s.(gaps := s'.gaps, completed := s'.completed, tally := s.tally.(lostDeclared := s'.tally.lostDeclared))
    ensures Inv(policy, s')
  {
    assert forall m :: m in s'.gaps <==> m in s'.gaps.Keys;
    assert forall m :: m in s.gaps <==> m in s.gaps.Keys;
    SameEarly(s, s');
    assert Empty(s) ==> s'.gaps.Keys == {};
    hide EarlyHeld;
  }

  lemma CompletedKeeps(policy: Policy, s: Stream, block: U32)
    requires Inv(policy, s)
    ensures Inv(policy, Completed(policy, s, block))
  {
    assert Completed(policy, s, block).gaps.Keys == s.gaps.Keys;
    hide Inv, GapBlock, Trimmed;
    GapsRejudged(policy, s, Completed(policy, s, block));
  }

  lemma EvaluatedKeeps(policy: Policy, s: Stream, live: Option<U32>, now: nat)
    requires Inv(policy, s)
    ensures Inv(policy, Evaluated(policy, s, live, now))
  {
    assert Evaluated(policy, s, live, now).gaps.Keys == s.gaps.Keys;
    hide Inv, Judged;
    GapsRejudged(policy, s, Evaluated(policy, s, live, now));
  }

  lemma SettledKeeps(policy: Policy, s: Stream, live: Option<U32>, now: nat)
    requires Inv(policy, s)
    ensures Inv(policy, Settled(policy, s, live, now))
  {
    hide Inv, Evaluated, Advanced;
    EvaluatedKeeps(policy, s, live, now);
    AdvancedKeeps(policy, Evaluated(policy, s, live, now), now);
  }

  // ---- a packet ---------------------------------------------------------------------------------------

  /** A packet filed but its gaps not yet noted. */
  ghost predicate Unnoted(policy: Policy, s: Stream) {
    && Ranged(policy, s) && s.cursor <= s.maxSeq && s.maxSeq in s.held
    && (forall m :: m in s.held ==> m !in s.gaps)
    && BlocksKnown(s) && Books(s) && Once(s)
  }

  lemma AddSize<K, V>(m: map<K, V>, k: K, v: V)
    requires k !in m
    ensures |m[k := v]| == |m| + 1
  {
    assert m[k := v].Keys == m.Keys + {k};
    assert |m[k := v].Keys| == |m[k := v]|;
  }

  lemma FiledBooks(s: Stream, p: Packet, budget: nat, now: nat)
    requires Books(s) && !Duplicate(s, p)
    ensures Books(Filed(s, p, budget, now))
  {
    var r := Filed(s, p, budget, now);
    var m: nat := p.sequence;
    AddSize(s.held, m, Kept(p.blockId, p.flags, p.payload, false));
    assert EarlyHeld(r) == EarlyHeld(s);
    hide EarlyHeld;
  }

  lemma FiledOnce(s: Stream, p: Packet, budget: nat, now: nat)
    requires Once(s) && !Duplicate(s, p)
    ensures Once(Filed(s, p, budget, now))
  {
  }

  lemma FiledRanged(policy: Policy, s: Stream, p: Packet, budget: nat, now: nat)
    requires Ranged(policy, s) && Partition(s) && !Duplicate(s, p) && PlausibleForward(s.cursor, p.sequence, policy.clampPackets)
    ensures var f := Filed(s, p, budget, now);
            Ranged(policy, f) && f.cursor <= f.maxSeq && f.maxSeq in f.held && forall m :: m in f.held ==> m !in f.gaps
  {
  }

  lemma FiledReady(policy: Policy, s: Stream, p: Packet, budget: nat, now: nat)
    requires Inv(policy, s) && !Duplicate(s, p) && PlausibleForward(s.cursor, p.sequence, policy.clampPackets)
    ensures var f := Filed(s, p, budget, now);
            Unnoted(policy, f) && p.sequence in f.held && !f.held[p.sequence].early && f.held[p.sequence].block == p.blockId
  {
    assert var f := Filed(s, p, budget, now);
           p.sequence in f.held && !f.held[p.sequence].early && f.held[p.sequence].block == p.blockId;
    hide Filed, Ranged, Partition, Once, Books, BlocksKnown, Duplicate, PlausibleForward;
    FiledBooks(s, p, budget, now);
    FiledOnce(s, p, budget, now);
    FiledBlocks(s, p, budget, now);
    FiledRanged(policy, s, p, budget, now);
  }

  lemma FiledBlocks(s: Stream, p: Packet, budget: nat, now: nat)
    requires BlocksKnown(s)
    ensures BlocksKnown(Filed(s, p, budget, now))
  {
  }

  lemma NotedKeeps(policy: Policy, s: Stream, now: nat)
    requires Unnoted(policy, s)
    ensures Inv(policy, GapsNoted(policy, s, now)) && GapsNoted(policy, s, now).held == s.held
  {
    var r := GapsNoted(policy, s, now);
    SameEarly(s, r);
    hide EarlyHeld, NewGap;
  }

  lemma TakenEarlyKeeps(policy: Policy, s: Stream, p: Packet)
    requires Inv(policy, s) && p.sequence in s.held && !s.held[p.sequence].early && s.held[p.sequence].block == p.blockId
    ensures Inv(policy, TakenEarly(s, p))
  {
    var r := TakenEarly(s, p);
    var m: nat := p.sequence;
    TakenBooks(s, p, m);
    TakenOnce(policy, s, p, m);
    assert forall x :: x in r.held <==> x in s.held;
    assert forall x :: x in s.held ==> r.held[x].block == s.held[x].block;
    hide Books, Once;
  }

  lemma TakenBooks(s: Stream, p: Packet, m: nat)
    requires Books(s) && m == p.sequence && m in s.held && !s.held[m].early
    ensures Books(TakenEarly(s, p))
  {
    var r := TakenEarly(s, p);
    assert EarlyHeld(r) == EarlyHeld(s) + {m};
    assert m !in EarlyHeld(s);
    assert r.held.Keys == s.held.Keys;
    assert |r.held| == |r.held.Keys| && |s.held| == |s.held.Keys|;
    hide EarlyHeld;
  }

  lemma TakenOnce(policy: Policy, s: Stream, p: Packet, m: nat)
    requires Ranged(policy, s) && Once(s) && m == p.sequence && m in s.held && !s.held[m].early
    ensures Once(TakenEarly(s, p))
  {
    forall i | 0 <= i < |s.log| ensures s.log[i].at != m {
      assert s.log[i] in s.log;
    }
  }

  lemma OfferedKeeps(policy: Policy, s: Stream, p: Packet, early: Option<Early>)
    requires Inv(policy, s) && p.sequence in s.held && !s.held[p.sequence].early && s.held[p.sequence].block == p.blockId
    ensures Inv(policy, Offered(policy, s, p, early))
  {
    if early.Some? {
      hide Inv, TakenEarly, Completed;
      if early.value.handled { TakenEarlyKeeps(policy, s, p); }
      CompletedKeeps(policy, if early.value.handled then TakenEarly(s, p) else s, p.blockId);
    }
  }

  lemma EnteringKeeps(policy: Policy, s: Stream, p: Packet, now: nat)
    requires Inv(policy, s)
    ensures var e := Entering(policy, s, p, now); Inv(policy, e.s) && (e.Entered? ==> PlausibleForward(e.s.cursor, p.sequence, policy.clampPackets))
  {
    hide Inv, Floored;
    var r := s.(tally := s.tally.(clampRejected := s.tally.clampRejected + 1));
    MarksKeep(policy, s, r);
    MarksKeep(policy, s, r.(firstClamp := now));
    MarksKeep(policy, s, s.(firstClamp := 0));
    FlooredInv(policy, r, p.sequence, p.blockId);
    FlooredAt(r, p.sequence, p.blockId);
  }

  lemma FlooredAt(s: Stream, at: U32, block: U32)
    ensures Floored(s, at, block).cursor == at
  {
  }

  /** Counters of refusals and duplicates, the clamp's clock and the best-effort mark are nobody's books. */
  lemma MarksKeep(policy: Policy, s: Stream, s': Stream)
    requires Inv(policy, s) && (s.bestEffort ==> s'.bestEffort)
    requires s' == s.(firstClamp := s'.firstClamp, bestEffort := s'.bestEffort,
                      tally := s.tally.(clampRejected := s'.tally.clampRejected, diversity := s'.tally.diversity))
    ensures Inv(policy, s')
  {
    SameEarly(s, s');
    hide EarlyHeld;
  }

  lemma HeardKeeps(policy: Policy, s: Stream, p: Packet, mismatch: bool, budget: nat, live: Option<U32>,
                   early: Option<Early>, now: nat)
    requires Inv(policy, s)
    ensures Inv(policy, Heard(policy, s, p, mismatch, budget, live, early, now))
  {
    hide Inv, Unnoted, Filed, GapsNoted, Offered, Settled, Entering, Duplicate;
    var s1 := s.(bestEffort := s.bestEffort || mismatch);
    MarksKeep(policy, s, s1);
    EnteringKeeps(policy, s1, p, now);
    var e := Entering(policy, s1, p, now);
    if e.Entered? {
      if Duplicate(e.s, p) {
        MarksKeep(policy, e.s, e.s.(tally := e.s.tally.(diversity := e.s.tally.diversity + 1)));
      } else {
        var f := Filed(e.s, p, budget, now);
        FiledReady(policy, e.s, p, budget, now);
        NotedKeeps(policy, f, now);
        OfferedKeeps(policy, GapsNoted(policy, f, now), p, early);
        SettledKeeps(policy, Offered(policy, GapsNoted(policy, f, now), p, early), live, now);
      }
    }
  }

  // ---- head-of-line blocking --------------------------------------------------------------------------

  /** Every gap left to decide is below a packet of the newest block. */
  ghost predicate Sorted(s: Stream) {
    forall m :: m in s.gaps && !s.gaps[m].satisfied && !s.gaps[m].superseded ==>
      BlockAbove(s, m).Some? ==> BlockAbove(s, m).value >= s.maxBlock
  }

  lemma EvaluatedSorted(policy: Policy, s: Stream, live: Option<U32>, now: nat)
    requires !s.bestEffort
    ensures Sorted(Evaluated(policy, s, live, now))
  {
    var r := Evaluated(policy, s, live, now);
    forall m | m in r.gaps && !r.gaps[m].satisfied && !r.gaps[m].superseded
      ensures BlockAbove(r, m).Some? ==> BlockAbove(r, m).value >= r.maxBlock
    {
      assert r.gaps[m] == Judged(policy, s, m, s.gaps[m], live, now);
      assert BlockAbove(r, m) == BlockAbove(s, m);
    }
  }

  lemma {:induction false} HeldFromAbove(held: map<nat, Kept>, c: nat, m: nat, top: nat)
    requires c < m
    ensures HeldFrom(held - {c}, m, top) == HeldFrom(held, m, top)
    decreases top + 1 - m
  {
    if m <= top && m !in held { HeldFromAbove(held, c, m + 1, top); }
  }

  lemma ConsumedSorted(policy: Policy, s: Stream)
    requires Inv(policy, s) && Sorted(s) && s.cursor in s.held && s.cursor + 1 < SEQ_END
    ensures Sorted(AfterConsumed(s))
  {
    var r := AfterConsumed(s);
    forall m | m in r.gaps && !r.gaps[m].satisfied && !r.gaps[m].superseded
      ensures BlockAbove(r, m).Some? ==> BlockAbove(r, m).value >= r.maxBlock
    {
      assert m in s.gaps && m >= s.cursor;
      HeldFromAbove(s.held, s.cursor, m + 1, s.maxSeq);
      assert BlockAbove(r, m) == BlockAbove(s, m);
    }
  }

  lemma GivenUpSorted(s: Stream, why: Skip)
    requires Sorted(s) && s.cursor + 1 < SEQ_END
    ensures Sorted(Stepped(GivenUp(s, why)))
  {
    var r := Stepped(GivenUp(s, why));
    forall m | m in r.gaps && !r.gaps[m].satisfied && !r.gaps[m].superseded
      ensures BlockAbove(r, m).Some? ==> BlockAbove(r, m).value >= r.maxBlock
    {
      assert BlockAbove(r, m) == BlockAbove(s, m);
    }
  }

  /** Whatever waits, waits behind the newest block, and that block's deadline is still ahead. */
  ghost predicate Waiting(s: Stream, now: nat) {
    s.held != map[] ==>
      && s.cursor !in s.held && BlockAbove(s, s.cursor) == Some(s.maxBlock) && s.maxBlock in s.blocks && now < s.blocks[s.maxBlock].deadline
  }

  /** The cursor stops only in front of a gap whose block may still be completed in time. */
  lemma StopWaits(policy: Policy, s: Stream, now: nat)
    requires Inv(policy, s) && Sorted(s) && !s.bestEffort && s.cursor <= s.maxSeq && s.cursor !in s.held
    requires s.cursor in s.gaps ==> SkipReason(s, s.gaps[s.cursor], now).None?
    ensures Waiting(s, now)
  {
    if s.held != map[] {
      assert s.maxSeq in s.held;
      var above := HeldFrom(s.held, s.cursor + 1, s.maxSeq);
      assert above.Some?;
      assert s.held[above.value].block <= s.maxBlock;
    }
  }

  lemma PastNewest(policy: Policy, s: Stream)
    requires Ranged(policy, s) && s.cursor > s.maxSeq
    ensures s.held == map[]
  {
  }

  lemma {:induction false} AdvancedWaits(policy: Policy, s: Stream, now: nat)
    requires Inv(policy, s) && Sorted(s) && !s.bestEffort
    ensures Waiting(Advanced(s, now), now)
    decreases s.maxSeq - s.cursor + 1
  {
    if s.cursor > s.maxSeq {
      PastNewest(policy, s);
    } else if s.cursor in s.held {
      if s.cursor + 1 < SEQ_END {
        ConsumedKeeps(policy, s);
        ConsumedSorted(policy, s);
        hide Inv, Sorted, Waiting, Pruned;
        AdvancedWaits(policy, AfterConsumed(s), now);
      }
    } else if s.cursor in s.gaps && SkipReason(s, s.gaps[s.cursor], now).Some? {
      var why := SkipReason(s, s.gaps[s.cursor], now).value;
      assert s.cursor + 1 < SEQ_END;
      GivenUpKeeps(policy, s, why);
      GivenUpSorted(s, why);
      hide Inv, Sorted, Waiting, SkipReason;
      AdvancedWaits(policy, Stepped(GivenUp(s, why)), now);
    } else {
      StopWaits(policy, s, now);
    }
  }

  // ---- runs ---------------------------------------------------------------------------------------------

  /** Everything that reaches a stream; live and early are what adapters and consumer answer at the time. */
  datatype Input =
    | Packets(p: Packet, mismatch: bool, budget: nat, live: Option<U32>, early: Option<Early>, now: nat)
    | FrameDone(block: U32, live: Option<U32>, now: nat)
    | Tick(live: Option<U32>, now: nat)

  function Next(policy: Policy, s: Stream, x: Input): Stream {
    match x
    case Packets(p, mismatch, budget, live, early, now) => Heard(policy, s, p, mismatch, budget, live, early, now)
    case FrameDone(block, live, now) => FrameCompleted(policy, s, block, live, now)
    case Tick(live, now) => Settled(policy, s, live, now)
  }

  function Run(policy: Policy, s: Stream, inputs: seq<Input>): Stream
    decreases |inputs|
  {
    if inputs == [] then s else Run(policy, Next(policy, s, inputs[0]), inputs[1..])
  }

  lemma NextKeeps(policy: Policy, s: Stream, x: Input)
    requires Inv(policy, s)
    ensures Inv(policy, Next(policy, s, x))
  {
    hide Inv, Heard, Settled, Completed;
    match x {
      case Packets(p, mismatch, budget, live, early, now) => HeardKeeps(policy, s, p, mismatch, budget, live, early, now);
      case FrameDone(block, live, now) =>
        CompletedKeeps(policy, s, block);
        SettledKeeps(policy, Completed(policy, s, block), live, now);
      case Tick(live, now) => SettledKeeps(policy, s, live, now);
    }
  }

  lemma {:induction false} RunKeeps(policy: Policy, s: Stream, inputs: seq<Input>)
    requires Inv(policy, s)
    ensures Inv(policy, Run(policy, s, inputs))
    decreases |inputs|
  {
    hide Inv, Next;
    if inputs != [] {
      NextKeeps(policy, s, inputs[0]);
      RunKeeps(policy, Next(policy, s, inputs[0]), inputs[1..]);
    }
  }

  /** In every reachable state each sequence number from cursor to newest is exactly one of held and missing. */
  lemma HeldOrMissing(policy: Policy, at: U32, block: U32, inputs: seq<Input>)
    ensures var s := Run(policy, Latched(at, block), inputs);
            && ((s.cursor == s.maxSeq && s.held == map[] && s.gaps == map[])
                || forall m: nat :: s.cursor <= m <= s.maxSeq ==> (m in s.held <==> m !in s.gaps))
            && (forall m :: m in s.held || m in s.gaps ==> s.cursor <= m <= s.maxSeq)
            && s.maxSeq - s.cursor <= policy.clampPackets
  {
    LatchedInv(policy, at, block);
    RunKeeps(policy, Latched(at, block), inputs);
    hide Run, Latched, Books, Once, BlocksKnown;
  }

  /** Since the last floor no sequence number was handed out twice, and turns came in strictly increasing order. */
  lemma HandedOutOnce(policy: Policy, at: U32, block: U32, inputs: seq<Input>)
    ensures var log := Run(policy, Latched(at, block), inputs).log;
            && (forall i, j :: 0 <= i < j < |log| ==> log[i].at != log[j].at)
            && (forall i, j :: 0 <= i < j < |log| && !log[i].early && !log[j].early ==> log[i].at < log[j].at)
  {
    LatchedInv(policy, at, block);
    RunKeeps(policy, Latched(at, block), inputs);
    hide Run, Latched, Books, Partition, Ranged, BlocksKnown;
  }

  /**
   * Since the last floor the cursor's advance is what was consumed plus the three drop counters plus the gaps a complete
   * frame satisfied; every accepted packet was consumed or is still held, and each consumed one was handed out.
   */
  lemma AdvanceAccounted(policy: Policy, at: U32, block: U32, inputs: seq<Input>)
    ensures var s := Run(policy, Latched(at, block), inputs);
            var t, b := s.tally, s.base;
            && s.cursor - s.floor == (t.consumed - b.consumed) + (t.superseded - b.superseded) + (t.deadline - b.deadline)
                                     + (t.unrecoverable - b.unrecoverable) + (t.satisfied - b.satisfied)
            && t.uniq - b.uniq == t.consumed - b.consumed + |s.held|
            && t.delivered - b.delivered == |s.log|
            && t.consumed - b.consumed <= |s.log| <= t.uniq - b.uniq
  {
    LatchedInv(policy, at, block);
    RunKeeps(policy, Latched(at, block), inputs);
    var s := Run(policy, Latched(at, block), inputs);
    EarlyFits(s);
    hide Run, Latched, EarlyHeld, Once, Partition, Ranged, BlocksKnown;
  }

  lemma EarlyFits(s: Stream)
    ensures |EarlyHeld(s)| <= |s.held|
  {
    assert |s.held| == |s.held.Keys|;
    assert EarlyHeld(s) <= s.held.Keys;
    assert s.held.Keys == EarlyHeld(s) + (s.held.Keys - EarlyHeld(s));
  }

  /**
   * Bounded head-of-line blocking: after any tick of a stream that is not best-effort, a packet still held has some
   * packet at or before it whose block's deadline has not passed.
   */
  lemma HeldWithinDeadline(policy: Policy, at: U32, block: U32, inputs: seq<Input>, live: Option<U32>, now: nat)
    requires !Run(policy, Latched(at, block), inputs).bestEffort
    ensures var s := Next(policy, Run(policy, Latched(at, block), inputs), Tick(live, now));
            forall m :: m in s.held ==>
              exists e :: e in s.held && e <= m && s.held[e].block == s.maxBlock && s.maxBlock in s.blocks
                          && now < s.blocks[s.maxBlock].deadline
  {
    LatchedInv(policy, at, block);
    RunKeeps(policy, Latched(at, block), inputs);
    var s0 := Run(policy, Latched(at, block), inputs);
    hide Run, Latched;
    EvaluatedKeeps(policy, s0, live, now);
    EvaluatedSorted(policy, s0, live, now);
    var v := Evaluated(policy, s0, live, now);
    AdvancedWaits(policy, v, now);
    AdvancedKeeps(policy, v, now);
    WaitingMeans(policy, Advanced(v, now), now);
  }

  lemma WaitingMeans(policy: Policy, s: Stream, now: nat)
    requires Inv(policy, s) && Waiting(s, now)
    ensures forall m :: m in s.held ==>
              exists e :: e in s.held && e <= m && s.held[e].block == s.maxBlock && s.maxBlock in s.blocks
                          && now < s.blocks[s.maxBlock].deadline
  {
    forall m | m in s.held
      ensures exists e :: e in s.held && e <= m && s.held[e].block == s.maxBlock && s.maxBlock in s.blocks
                          && now < s.blocks[s.maxBlock].deadline
    {
      var above := HeldFrom(s.held, s.cursor + 1, s.maxSeq);
      assert above.Some? && s.held[above.value].block == s.maxBlock;
    }
  }
}
